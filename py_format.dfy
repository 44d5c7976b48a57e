/**
 * The fragment of Python's `str.format` that the operators rely on: literal
 * text, the escapes `{{` and `}}`, automatically numbered fields `{}`,
 * manually numbered fields `{0}`, and keyword fields `{name}`.  Every
 * statement the operators send to the warehouse, every S3 path and every
 * template name is produced by this one function, so the properties of the
 * operators are proved about what `str.format` actually does.
 */
module PyFormat {
  import opened Results

  /** The exceptions `str.format` raises. */
  datatype FormatError =
    | SingleCloseBrace          // ValueError: a lone '}' in literal text
    | UnclosedField             // ValueError: a field still open when the text ends
    | BraceInField              // ValueError: a '{' inside a field name
    | NumberingSwitch           // ValueError: `{}` and `{0}` mixed in one template
    | IndexOutOfRange(index: nat)  // IndexError: a positional field past the arguments
    | MissingKey(key: string)   // KeyError: a keyword field with no argument

  /** Which kind of positional numbering the template has used so far. */
  datatype Numbering = Unset | Automatic | Manual

  predicate NoBraces(s: string) {
    forall i :: 0 <= i < |s| ==> s[i] != '{' && s[i] != '}'
  }

  predicate IsDigit(c: char) {
    '0' <= c <= '9'
  }

  predicate IsDigits(s: string) {
    |s| > 0 && forall i :: 0 <= i < |s| ==> IsDigit(s[i])
  }

  /** The number a string of decimal digits denotes (Python's `int(s)`). */
  function DigitsValue(s: string): nat
    requires forall i :: 0 <= i < |s| ==> IsDigit(s[i])
  {
    if s == [] then 0
    else
      assert IsDigit(s[|s| - 1]);
      10 * DigitsValue(s[..|s| - 1]) + (s[|s| - 1] as int - '0' as int)
  }

  /** Decimal rendering of a natural number, most significant digit first. */
  function NatToString(n: nat): (s: string)
    ensures IsDigits(s)
    ensures s[0] == '0' <==> n == 0
    ensures n == 0 ==> s == "0"
    ensures |s| > 1 ==> s[0] != '0'
  {
    if n < 10 then ['0' + n as char]
    else NatToString(n / 10) + ['0' + (n % 10) as char]
  }

  /** Python's `str(i)` (and `format(i, '')`) for an integer. */
  function IntToString(i: int): (s: string)
    ensures i >= 0 ==> IsDigits(s) && DigitsValue(s) == i && (|s| > 1 ==> s[0] != '0')
    ensures i < 0 ==> |s| >= 2 && s[0] == '-' && IsDigits(s[1..]) && DigitsValue(s[1..]) == -i
                      && s[1] != '0'
  {
    if i < 0 then
      NatToStringRoundTrip(-i);
      assert ("-" + NatToString(-i))[1..] == NatToString(-i);
      "-" + NatToString(-i)
    else
      NatToStringRoundTrip(i);
      NatToString(i)
  }

  /** Reading back a rendered number gives the number. */
  lemma {:induction false} NatToStringRoundTrip(n: nat)
    ensures DigitsValue(NatToString(n)) == n
  {
    var s := NatToString(n);
    if n >= 10 {
      NatToStringRoundTrip(n / 10);
      assert s[..|s| - 1] == NatToString(n / 10);
    }
  }

  /**
   * Where the name of the field opened just before `s` ends: the index of
   * the first `{` or `}` outside square brackets, or `|s|` when the text
   * ends first.  Inside `[...]` every character, braces included, belongs
   * to the name.  `inBracket` says whether a `[` is still open.
   */
  function NameEnd(s: string, inBracket: bool): (k: nat)
    ensures k <= |s|
    ensures k < |s| ==> s[k] == '{' || s[k] == '}'
    decreases |s|
  {
    if s == [] then 0
    else if inBracket then 1 + NameEnd(s[1..], s[0] != ']')
    else if s[0] == '{' || s[0] == '}' then 0
    else 1 + NameEnd(s[1..], s[0] == '[')
  }

  /** A field name with no braces and no brackets. */
  predicate PlainName(name: string) {
    NoBraces(name) && '[' !in name
  }

  /** A plain field name is ended by the `}` right after it. */
  lemma {:induction false} CloseAfterName(name: string, rest: string)
    requires PlainName(name)
    ensures NameEnd(name + "}" + rest, false) == |name|
    decreases |name|
  {
    if name != [] {
      assert (name + "}" + rest)[0] == name[0];
      assert (name + "}" + rest)[1..] == name[1..] + "}" + rest;
      assert name[0] in name;
      assert PlainName(name[1..]) by {
        forall c | c in name[1..] ensures c in name { }
      }
      CloseAfterName(name[1..], rest);
    } else {
      assert name + "}" + rest == "}" + rest;
    }
  }

  /**
   * The text one replacement field stands for, with the positional counter
   * and numbering mode after it.  An empty name takes the next positional
   * argument, a name made of digits takes that positional argument, and any
   * other name is looked up among the keyword arguments.
   */
  function Field(name: string, args: seq<string>, kwargs: map<string, string>,
                 next: nat, mode: Numbering): Result<(string, nat, Numbering), FormatError>
  {
    if name == [] then
      if mode == Manual then Err(NumberingSwitch)
      else if next < |args| then Ok((args[next], next + 1, Automatic))
      else Err(IndexOutOfRange(next))
    else if IsDigits(name) then
      if mode == Automatic then Err(NumberingSwitch)
      else
        var n := DigitsValue(name);
        if n < |args| then Ok((args[n], next, Manual)) else Err(IndexOutOfRange(n))
    else if name in kwargs then Ok((kwargs[name], next, mode))
    else Err(MissingKey(name))
  }

  function Prepend(s: string, r: Result<string, FormatError>): Result<string, FormatError> {
    if r.Ok? then Ok(s + r.value) else r
  }

  /** `t.format(*args, **kwargs)`, scanning `t` left to right from the given numbering state. */
  function FormatFrom(t: string, args: seq<string>, kwargs: map<string, string>,
                      next: nat, mode: Numbering): Result<string, FormatError>
    decreases |t|
  {
    if t == [] then Ok("")
    else if t[0] == '{' then
      if |t| >= 2 && t[1] == '{' then Prepend("{", FormatFrom(t[2..], args, kwargs, next, mode))
      else
        var k := NameEnd(t[1..], false);
        if k == |t| - 1 then Err(UnclosedField)
        else if t[k + 1] == '{' then Err(BraceInField)
        else
          var name := t[1..k + 1];
          match Field(name, args, kwargs, next, mode)
          case Err(e) => Err(e)
          case Ok((v, next', mode')) => Prepend(v, FormatFrom(t[k + 2..], args, kwargs, next', mode'))
    else if t[0] == '}' then
      if |t| >= 2 && t[1] == '}' then Prepend("}", FormatFrom(t[2..], args, kwargs, next, mode))
      else Err(SingleCloseBrace)
    else Prepend([t[0]], FormatFrom(t[1..], args, kwargs, next, mode))
  }

  /** `t.format(*args, **kwargs)`. */
  function Format(t: string, args: seq<string>, kwargs: map<string, string>): (r: Result<string, FormatError>)
    ensures NoBraces(t) ==> r == Ok(t)
  {
    NoBracesFormats(t, args, kwargs);
    FormatFrom(t, args, kwargs, 0, Unset)
  }

  lemma NoBracesFormats(t: string, args: seq<string>, kwargs: map<string, string>)
    ensures NoBraces(t) ==> FormatFrom(t, args, kwargs, 0, Unset) == Ok(t)
  {
    if NoBraces(t) {
      NoBracesIdentity(t, args, kwargs, 0, Unset);
    }
  }

  /** The template `pieces[0] + "{}" + pieces[1] + ... + "{}" + pieces[n]`. */
  function Join(pieces: seq<string>): string
    requires |pieces| >= 1
  {
    if |pieces| == 1 then pieces[0] else pieces[0] + "{}" + Join(pieces[1..])
  }

  /** The text with the holes of `Join(pieces)` filled by `args` in order. */
  function Fill(pieces: seq<string>, args: seq<string>): string
    requires |pieces| >= 1 && |args| >= |pieces| - 1
  {
    if |pieces| == 1 then pieces[0] else pieces[0] + args[0] + Fill(pieces[1..], args[1..])
  }

  lemma JoinStep(pieces: seq<string>)
    requires |pieces| >= 2
    ensures Join(pieces) == (pieces[0] + "{}") + Join(pieces[1..])
  {
  }

  lemma FillStep(pieces: seq<string>, args: seq<string>)
    requires |pieces| >= 2 && |args| >= |pieces| - 1
    ensures Fill(pieces, args) == (pieces[0] + args[0]) + Fill(pieces[1..], args[1..])
  {
  }

  predicate AllNoBraces(pieces: seq<string>) {
    forall i :: 0 <= i < |pieces| ==> NoBraces(pieces[i])
  }

  /** Text without braces is copied unchanged, whatever the arguments. */
  lemma {:induction false} NoBracesIdentity(t: string, args: seq<string>, kwargs: map<string, string>,
                                            next: nat, mode: Numbering)
    requires NoBraces(t)
    ensures FormatFrom(t, args, kwargs, next, mode) == Ok(t)
    decreases |t|
  {
    if t != [] {
      NoBracesIdentity(t[1..], args, kwargs, next, mode);
      assert [t[0]] + t[1..] == t;
    }
  }

  /** A brace-free prefix is copied and the rest is formatted from the same state. */
  lemma {:induction false} LiteralPrefix(lit: string, rest: string, args: seq<string>,
                                         kwargs: map<string, string>, next: nat, mode: Numbering)
    requires NoBraces(lit)
    ensures FormatFrom(lit + rest, args, kwargs, next, mode)
         == Prepend(lit, FormatFrom(rest, args, kwargs, next, mode))
    decreases |lit|
  {
    if lit != [] {
      assert (lit + rest)[0] == lit[0];
      assert (lit + rest)[1..] == lit[1..] + rest;
      LiteralPrefix(lit[1..], rest, args, kwargs, next, mode);
      var r := FormatFrom(rest, args, kwargs, next, mode);
      if r.Ok? {
        assert [lit[0]] + (lit[1..] + r.value) == lit + r.value;
      }
    } else {
      assert lit + rest == rest;
      var r := FormatFrom(rest, args, kwargs, next, mode);
      if r.Ok? {
        assert lit + r.value == r.value;
      }
    }
  }

  /** A `{` in a field name is refused at once, before the text ends. */
  lemma InnerBraceInName()
    ensures Format("{a{", [], map[]) == Err(BraceInField)
  {
    assert "{a{"[1..] == "a{";
    assert NameEnd("a{", false) == 1;
  }

  /** Braces do not nest in a field name: the inner `{` is refused. */
  lemma NestedPairInName()
    ensures Format("{a{b}", [], map[]) == Err(BraceInField)
    ensures Format("{a{b}}", [], map[]) == Err(BraceInField)
  {
    assert "{a{b}"[1..] == "a{b}";
    assert NameEnd("a{b}", false) == 1;
    assert "{a{b}}"[1..] == "a{b}}";
    assert NameEnd("a{b}}", false) == 1;
  }

  /**
   * Inside square brackets braces belong to the name: `{a[}]}` is one field
   * named `a[}]`, and `{a[}` is still open when the text ends.
   */
  lemma BracketedBrace(v: string)
    ensures Format("{a[}]}", [], map["a[}]" := v]) == Ok(v)
    ensures Format("{a[}", [], map["a[}]" := v]) == Err(UnclosedField)
  {
    assert "{a[}]}"[1..] == "a[}]}";
    assert NameEnd("a[}]}", false) == 4;
    assert "{a[}]}"[1..5] == "a[}]";
    assert !IsDigits("a[}]") by { assert !IsDigit('a'); }
    assert "{a[}]}"[5] == '}' && "{a[}]}"[6..] == [];
    assert Field("a[}]", [], map["a[}]" := v], 0, Unset) == Ok((v, 0, Unset));
    assert v + "" == v;
    assert "{a[}"[1..] == "a[}";
    assert NameEnd("a[}", false) == 3;
  }

  /** An automatically numbered field takes the next positional argument. */
  lemma AutoField(rest: string, args: seq<string>, kwargs: map<string, string>, next: nat, mode: Numbering)
    requires mode != Manual && next < |args|
    ensures FormatFrom("{}" + rest, args, kwargs, next, mode)
         == Prepend(args[next], FormatFrom(rest, args, kwargs, next + 1, Automatic))
  {
    var t := "{}" + rest;
    assert t[1..][0] == '}';
    assert t[2..] == rest;
  }

  /** A keyword field is replaced by its argument and leaves the numbering alone. */
  lemma KeywordField(name: string, rest: string, args: seq<string>, kwargs: map<string, string>,
                     next: nat, mode: Numbering)
    requires name != [] && PlainName(name) && !IsDigits(name) && name in kwargs
    ensures FormatFrom("{" + name + "}" + rest, args, kwargs, next, mode)
         == Prepend(kwargs[name], FormatFrom(rest, args, kwargs, next, mode))
  {
    var t := "{" + name + "}" + rest;
    var k := NameEnd(t[1..], false);
    assert t[1..] == name + "}" + rest;
    CloseAfterName(name, rest);
    assert k == |name|;
    assert t[1..k + 1] == name;
    assert t[k + 2..] == rest;
  }

  /** A keyword field with no argument raises KeyError. */
  lemma MissingKeywordField(name: string, rest: string, args: seq<string>, kwargs: map<string, string>,
                            next: nat, mode: Numbering)
    requires name != [] && PlainName(name) && !IsDigits(name) && name !in kwargs
    ensures FormatFrom("{" + name + "}" + rest, args, kwargs, next, mode) == Err(MissingKey(name))
  {
    var t := "{" + name + "}" + rest;
    var k := NameEnd(t[1..], false);
    assert t[1..] == name + "}" + rest;
    CloseAfterName(name, rest);
    assert k == |name|;
    assert t[1..k + 1] == name;
  }

  /** `{{` and `}}` each stand for one literal brace. */
  lemma EscapedBraces(rest: string, args: seq<string>, kwargs: map<string, string>, next: nat, mode: Numbering)
    ensures FormatFrom("{{" + rest, args, kwargs, next, mode) == Prepend("{", FormatFrom(rest, args, kwargs, next, mode))
    ensures FormatFrom("}}" + rest, args, kwargs, next, mode) == Prepend("}", FormatFrom(rest, args, kwargs, next, mode))
  {
    assert ("{{" + rest)[2..] == rest;
    assert ("}}" + rest)[2..] == rest;
  }

  /** A `}` that is not doubled in literal text raises ValueError. */
  lemma LoneCloseBrace(rest: string, args: seq<string>, kwargs: map<string, string>, next: nat, mode: Numbering)
    requires rest == [] || rest[0] != '}'
    ensures FormatFrom("}" + rest, args, kwargs, next, mode) == Err(SingleCloseBrace)
  {
    if rest != [] {
      assert ("}" + rest)[1] == rest[0];
    }
  }

  /** A name of digits has no braces and no brackets. */
  lemma DigitsArePlain(name: string)
    requires IsDigits(name)
    ensures PlainName(name)
  {
    forall c | c in name
      ensures c != '['
    {
      var i :| 0 <= i < |name| && name[i] == c;
      assert IsDigit(name[i]);
    }
  }

  /**
   * A manually numbered field `{n}` takes positional argument `n` and fixes
   * the numbering as manual; it raises IndexError when there is no such
   * argument and ValueError after an automatically numbered field.
   */
  lemma ManualField(name: string, rest: string, args: seq<string>, kwargs: map<string, string>,
                    next: nat, mode: Numbering)
    requires IsDigits(name)
    ensures mode != Automatic && DigitsValue(name) < |args| ==>
      FormatFrom("{" + name + "}" + rest, args, kwargs, next, mode)
        == Prepend(args[DigitsValue(name)], FormatFrom(rest, args, kwargs, next, Manual))
    ensures mode != Automatic && DigitsValue(name) >= |args| ==>
      FormatFrom("{" + name + "}" + rest, args, kwargs, next, mode) == Err(IndexOutOfRange(DigitsValue(name)))
    ensures mode == Automatic ==>
      FormatFrom("{" + name + "}" + rest, args, kwargs, next, mode) == Err(NumberingSwitch)
  {
    var t := "{" + name + "}" + rest;
    assert t[1..] == name + "}" + rest;
    DigitsArePlain(name);
    CloseAfterName(name, rest);
    assert t[1..|name| + 1] == name;
    assert t[|name| + 2..] == rest;
  }

  /** An automatically numbered field after a manually numbered one raises ValueError. */
  lemma AutoAfterManual(rest: string, args: seq<string>, kwargs: map<string, string>, next: nat)
    ensures FormatFrom("{}" + rest, args, kwargs, next, Manual) == Err(NumberingSwitch)
  {
    var t := "{}" + rest;
    assert t[1..][0] == '}';
  }

  /** `"{{}}".format()` is the text `{}`. */
  lemma EscapesExample()
    ensures Format("{{}}", [], map[]) == Ok("{}")
  {
    EscapedBraces("}}", [], map[], 0, Unset);
    EscapedBraces("", [], map[], 0, Unset);
    assert "{{}}" == "{{" + "}}" && "}}" == "}}" + "";
    assert FormatFrom("", [], map[], 0, Unset) == Ok("");
    assert "}" + "" == "}" && "{" + "}" == "{}";
  }

  /** `"a}b".format()` raises ValueError for the lone `}`. */
  lemma LoneCloseExample()
    ensures Format("a}b", [], map[]) == Err(SingleCloseBrace)
  {
    LiteralPrefix("a", "}b", [], map[], 0, Unset);
    LoneCloseBrace("b", [], map[], 0, Unset);
    assert "a}b" == "a" + "}b" && "}b" == "}" + "b";
  }

  /** `"{1}{0}".format(a, b)` is `b + a`, and `"{0}{}"` mixes numberings and raises ValueError. */
  lemma ManualExample(a: string, b: string)
    ensures Format("{1}{0}", [a, b], map[]) == Ok(b + a)
    ensures Format("{0}{}", [a, b], map[]) == Err(NumberingSwitch)
  {
    assert DigitsValue("1") == 1 && DigitsValue("0") == 0;
    ManualField("1", "{0}", [a, b], map[], 0, Unset);
    ManualField("0", "", [a, b], map[], 0, Manual);
    NoBracesIdentity("", [a, b], map[], 0, Manual);
    assert "{1}{0}" == "{" + "1" + "}" + "{0}";
    assert "{0}" == "{" + "0" + "}" + "";
    assert a + "" == a;
    ManualField("0", "{}", [a, b], map[], 0, Unset);
    AutoAfterManual("", [a, b], map[], 0);
    assert "{0}{}" == "{" + "0" + "}" + "{}";
    assert "{}" == "{}" + "";
  }

  /**
   * A template of brace-free pieces separated by `{}` fills its holes with
   * the positional arguments in order, starting at the current counter.
   */
  lemma {:induction false} AutoTemplate(pieces: seq<string>, args: seq<string>,
                                        kwargs: map<string, string>, next: nat, mode: Numbering)
    requires |pieces| >= 1 && AllNoBraces(pieces) && mode != Manual
    requires next + |pieces| - 1 <= |args|
    ensures FormatFrom(Join(pieces), args, kwargs, next, mode) == Ok(Fill(pieces, args[next..]))
    decreases |pieces|
  {
    if |pieces| == 1 {
      NoBracesIdentity(pieces[0], args, kwargs, next, mode);
    } else {
      var rest := Join(pieces[1..]);
      assert Join(pieces) == pieces[0] + ("{}" + rest);
      LiteralPrefix(pieces[0], "{}" + rest, args, kwargs, next, mode);
      AutoField(rest, args, kwargs, next, mode);
      AutoTemplate(pieces[1..], args, kwargs, next + 1, Automatic);
      assert args[next..][1..] == args[next + 1..];
      assert args[next..][0] == args[next];
      assert pieces[0] + (args[next] + Fill(pieces[1..], args[next + 1..]))
          == Fill(pieces, args[next..]);
    }
  }

  /** A template with one `{}` between two brace-free texts. */
  lemma OneHole(pre: string, post: string, arg: string)
    requires NoBraces(pre) && NoBraces(post)
    ensures Format((pre + "{}") + post, [arg], map[]) == Ok((pre + arg) + post)
  {
    var pieces := [pre, post];
    assert pieces[1..] == [post];
    assert Join(pieces) == (pre + "{}") + post;
    AutoTemplate(pieces, [arg], map[], 0, Unset);
    assert [arg][1..] == [];
    assert Fill(pieces, [arg]) == (pre + arg) + post;
  }

  /** A template with two `{}` among three brace-free texts. */
  lemma TwoHoles(pre: string, mid: string, post: string, first: string, second: string)
    requires NoBraces(pre) && NoBraces(mid) && NoBraces(post)
    ensures Format((pre + "{}") + ((mid + "{}") + post), [first, second], map[])
         == Ok((pre + first) + ((mid + second) + post))
  {
    var pieces := [pre, mid, post];
    assert pieces[1..] == [mid, post] && pieces[1..][1..] == [post];
    assert Join(pieces[1..]) == (mid + "{}") + post;
    assert Join(pieces) == (pre + "{}") + ((mid + "{}") + post);
    AutoTemplate(pieces, [first, second], map[], 0, Unset);
    assert [first, second][1..] == [second] && [second][1..] == [];
    assert Fill(pieces[1..], [second]) == (mid + second) + post;
    assert Fill(pieces, [first, second]) == (pre + first) + ((mid + second) + post);
  }

  /** A replacement field `{name}` that is read as a keyword. */
  predicate IsKeyword(name: string) {
    name != [] && PlainName(name) && !IsDigits(name)
  }

  /** A brace-free text and a supplied keyword field in front of a rest that formats to `r`. */
  lemma LiteralThenKeyword(lit: string, name: string, rest: string, kwargs: map<string, string>, r: string)
    requires NoBraces(lit) && IsKeyword(name) && name in kwargs
    requires FormatFrom(rest, [], kwargs, 0, Unset) == Ok(r)
    ensures FormatFrom(lit + ("{" + name + "}" + rest), [], kwargs, 0, Unset) == Ok(lit + (kwargs[name] + r))
  {
    LiteralPrefix(lit, "{" + name + "}" + rest, [], kwargs, 0, Unset);
    KeywordField(name, rest, [], kwargs, 0, Unset);
  }

  /** Regrouping a concatenation of seven texts from the right to the left. */
  lemma Flatten(a: string, b: string, c: string, d: string, e: string, f: string, g: string)
    ensures a + (b + (c + (d + (e + (f + g))))) == a + b + c + d + e + f + g
  {
    var fg := f + g;
    var efg := e + fg;
    var defg := d + efg;
    var cdefg := c + defg;
    var bcdefg := b + cdefg;
    assert a + bcdefg == (a + b) + cdefg;
    assert (a + b) + cdefg == (a + b + c) + defg;
    assert (a + b + c) + defg == (a + b + c + d) + efg;
    assert (a + b + c + d) + efg == (a + b + c + d + e) + fg;
    assert (a + b + c + d + e) + fg == a + b + c + d + e + f + g;
  }

  /**
   * A template of four brace-free texts around three keyword fields: the
   * keywords' values written in when all three are supplied, and KeyError
   * for the first one when it is missing.
   */
  lemma ThreeKeywords(l0: string, k1: string, l1: string, k2: string, l2: string, k3: string, l3: string,
                      kwargs: map<string, string>)
    requires NoBraces(l0) && NoBraces(l1) && NoBraces(l2) && NoBraces(l3)
    requires IsKeyword(k1) && IsKeyword(k2) && IsKeyword(k3)
    ensures k1 in kwargs && k2 in kwargs && k3 in kwargs ==>
      Format(l0 + ("{" + k1 + "}" + (l1 + ("{" + k2 + "}" + (l2 + ("{" + k3 + "}" + l3))))), [], kwargs)
        == Ok(l0 + kwargs[k1] + l1 + kwargs[k2] + l2 + kwargs[k3] + l3)
    ensures k1 !in kwargs ==>
      Format(l0 + ("{" + k1 + "}" + (l1 + ("{" + k2 + "}" + (l2 + ("{" + k3 + "}" + l3))))), [], kwargs)
        == Err(MissingKey(k1))
  {
    var after2 := l2 + ("{" + k3 + "}" + l3);
    var after1 := l1 + ("{" + k2 + "}" + after2);
    if k1 in kwargs && k2 in kwargs && k3 in kwargs {
      var v1, v2, v3 := kwargs[k1], kwargs[k2], kwargs[k3];
      NoBracesIdentity(l3, [], kwargs, 0, Unset);
      LiteralThenKeyword(l2, k3, l3, kwargs, l3);
      LiteralThenKeyword(l1, k2, after2, kwargs, l2 + (v3 + l3));
      LiteralThenKeyword(l0, k1, after1, kwargs, l1 + (v2 + (l2 + (v3 + l3))));
      Flatten(l0, v1, l1, v2, l2, v3, l3);
    } else if k1 !in kwargs {
      LiteralPrefix(l0, "{" + k1 + "}" + after1, [], kwargs, 0, Unset);
      MissingKeywordField(k1, after1, [], kwargs, 0, Unset);
    }
  }

  /**
   * A template with more holes than arguments raises IndexError for the
   * first hole that has no argument.
   */
  lemma {:induction false} AutoTemplateTooFewArgs(pieces: seq<string>, args: seq<string>,
                                                  kwargs: map<string, string>, next: nat, mode: Numbering)
    requires |pieces| >= 1 && AllNoBraces(pieces) && mode != Manual
    requires next <= |args| < next + |pieces| - 1
    ensures FormatFrom(Join(pieces), args, kwargs, next, mode) == Err(IndexOutOfRange(|args|))
    decreases |pieces|
  {
    var rest := Join(pieces[1..]);
    assert Join(pieces) == pieces[0] + ("{}" + rest);
    LiteralPrefix(pieces[0], "{}" + rest, args, kwargs, next, mode);
    if next < |args| {
      AutoField(rest, args, kwargs, next, mode);
      AutoTemplateTooFewArgs(pieces[1..], args, kwargs, next + 1, Automatic);
    } else {
      var t := "{}" + rest;
      assert t[1..][0] == '}';
    }
  }

  /** Filling uses only the first `|pieces| - 1` arguments: any further ones are dropped. */
  lemma {:induction false} FillIgnoresExtraArgs(pieces: seq<string>, args: seq<string>, extra: seq<string>)
    requires |pieces| >= 1 && |args| == |pieces| - 1
    ensures Fill(pieces, args + extra) == Fill(pieces, args)
    decreases |pieces|
  {
    if |pieces| > 1 {
      assert (args + extra)[1..] == args[1..] + extra;
      FillIgnoresExtraArgs(pieces[1..], args[1..], extra);
    }
  }
}
