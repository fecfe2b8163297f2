/**
 * The three string operations the TileJSON response relies on: joining with a
 * separator (as a Java `Collectors.joining` collector does), filling `%s`
 * placeholders in a format template (as `String.formatted` does for string
 * arguments), and removing leading characters from a set (as Apache Commons'
 * `StringUtils.stripStart` does).
 */
module Strings {
  import opened Wrappers

  // ---------------------------------------------------------------------------
  // Joining

  /** The parts in order, with `sep` between each two neighbours; no parts give the empty string. */
  function Join(parts: seq<string>, sep: string): (r: string)
    ensures |parts| == 0 ==> r == ""
    ensures |parts| > 0 ==> |r| >= |parts[0]|
  {
    if |parts| == 0 then ""
    else if |parts| == 1 then parts[0]
    else parts[0] + sep + Join(parts[1..], sep)
  }

  /** Where part `i` starts in the joined string: the parts before it, each followed by a separator. */
  function Offset(parts: seq<string>, sep: string, i: nat): nat
    requires i <= |parts|
  {
    if i == 0 then 0 else |parts[0]| + |sep| + Offset(parts[1..], sep, i - 1)
  }

  lemma SliceAfterPrefix(x: string, y: string, a: nat, b: nat)
    requires a <= b <= |y|
    ensures (x + y)[|x| + a .. |x| + b] == y[a..b]
  {
  }

  lemma {:induction false} OffsetStep(parts: seq<string>, sep: string, i: nat)
    requires i < |parts|
    ensures Offset(parts, sep, i + 1) == Offset(parts, sep, i) + |parts[i]| + |sep|
  {
    if i > 0 {
      OffsetStep(parts[1..], sep, i - 1);
    }
  }

  /** The joined string ends right after the last part: no separator is added at either end. */
  lemma {:induction false} JoinLength(parts: seq<string>, sep: string)
    requires |parts| > 0
    ensures |Join(parts, sep)| == Offset(parts, sep, |parts| - 1) + |parts[|parts| - 1]|
  {
    if |parts| > 1 {
      var n := |parts|;
      JoinLength(parts[1..], sep);
      assert parts[1..][n - 2] == parts[n - 1];
      assert Offset(parts, sep, n - 1) == |parts[0]| + |sep| + Offset(parts[1..], sep, n - 2);
      assert Join(parts, sep) == parts[0] + sep + Join(parts[1..], sep);
    }
  }

  /** Part `i` appears, unchanged, at its offset in the joined string. */
  lemma {:induction false} JoinPartAt(parts: seq<string>, sep: string, i: nat)
    requires i < |parts|
    ensures Offset(parts, sep, i) + |parts[i]| <= |Join(parts, sep)|
    ensures Join(parts, sep)[Offset(parts, sep, i) .. Offset(parts, sep, i) + |parts[i]|] == parts[i]
  {
    if |parts| > 1 {
      var rest := Join(parts[1..], sep);
      assert Join(parts, sep) == (parts[0] + sep) + rest;
      if i > 0 {
        JoinPartAt(parts[1..], sep, i - 1);
        SliceAfterPrefix(parts[0] + sep, rest, Offset(parts[1..], sep, i - 1), Offset(parts[1..], sep, i - 1) + |parts[i]|);
      }
    }
  }

  /** Between part `i` and part `i + 1` of the joined string stands exactly one separator. */
  lemma {:induction false} JoinSeparatorAt(parts: seq<string>, sep: string, i: nat)
    requires i + 1 < |parts|
    ensures Offset(parts, sep, i + 1) == Offset(parts, sep, i) + |parts[i]| + |sep|
    ensures Offset(parts, sep, i + 1) <= |Join(parts, sep)|
    ensures Join(parts, sep)[Offset(parts, sep, i) + |parts[i]| .. Offset(parts, sep, i + 1)] == sep
  {
    var rest := Join(parts[1..], sep);
    assert Join(parts, sep) == (parts[0] + sep) + rest;
    OffsetStep(parts, sep, i);
    if i > 0 {
      JoinSeparatorAt(parts[1..], sep, i - 1);
      SliceAfterPrefix(parts[0] + sep, rest, Offset(parts[1..], sep, i - 1) + |parts[i]|, Offset(parts[1..], sep, i));
    } else {
      JoinLength(parts[1..], sep);
    }
  }

  // ---------------------------------------------------------------------------
  // Format templates

  /** Puts `prefix` in front of a formatted result; a failed formatting stays failed. */
  function Prepend(prefix: string, formatted: Option<string>): Option<string> {
    match formatted
    case None => None
    case Some(s) => Some(prefix + s)
  }

  /**
   * Fills the template: each `%s` takes the next argument as it is and `%%`
   * stands for `%`; every other character is copied. Arguments left over are
   * ignored; a `%s` with no argument left, or any other conversion after `%`,
   * makes the formatting fail.
   */
  function Format(template: string, args: seq<string>): (r: Option<string>)
    ensures '%' !in template ==> r == Some(template)
    decreases |template|
  {
    if template == [] then Some("")
    else if template[0] != '%' then
      assert template == [template[0]] + template[1..];
      Prepend([template[0]], Format(template[1..], args))
    else if |template| >= 2 && template[1] == 's' then
      if args == [] then None else Prepend(args[0], Format(template[2..], args[1..]))
    else if |template| >= 2 && template[1] == '%' then Prepend("%", Format(template[2..], args))
    else None
  }

  lemma PrependConcat(a: string, b: string, formatted: Option<string>)
    ensures Prepend(a, Prepend(b, formatted)) == Prepend(a + b, formatted)
  {
    if formatted.Some? {
      assert a + (b + formatted.value) == (a + b) + formatted.value;
    }
  }

  /** Text without `%` is copied to the output unchanged, whatever follows it. */
  lemma {:induction false} FormatLiteral(literal: string, rest: string, args: seq<string>)
    requires '%' !in literal
    ensures Format(literal + rest, args) == Prepend(literal, Format(rest, args))
  {
    if literal == [] {
      assert literal + rest == rest;
      match Format(rest, args)
      case None =>
      case Some(s) => assert literal + s == s;
    } else {
      assert (literal + rest)[1..] == literal[1..] + rest;
      FormatLiteral(literal[1..], rest, args);
      PrependConcat([literal[0]], literal[1..], Format(rest, args));
      assert [literal[0]] + literal[1..] == literal;
    }
  }

  /** A leading `%s` is replaced by the first argument, and the rest of the template uses the others. */
  lemma FormatPlaceholder(rest: string, arg: string, args: seq<string>)
    ensures Format("%s" + rest, [arg] + args) == Prepend(arg, Format(rest, args))
  {
    assert ("%s" + rest)[2..] == rest;
    assert ([arg] + args)[1..] == args;
  }

  /** Text without `%` followed by `%s`: the text, then the first argument, then the rest of the template filled with the others. */
  lemma FormatLiteralThenPlaceholder(literal: string, rest: string, arg: string, args: seq<string>)
    requires '%' !in literal
    ensures Format(literal + ("%s" + rest), [arg] + args) == Prepend(literal + arg, Format(rest, args))
  {
    FormatLiteral(literal, "%s" + rest, [arg] + args);
    FormatPlaceholder(rest, arg, args);
    PrependConcat(literal, arg, Format(rest, args));
  }

  /** The template made of the text pieces with a `%s` between each two neighbours. */
  function Template(pieces: seq<string>): string
    requires |pieces| > 0
  {
    if |pieces| == 1 then pieces[0] else pieces[0] + ("%s" + Template(pieces[1..]))
  }

  /** The text pieces with the arguments put between them, in order. */
  function Interleave(pieces: seq<string>, args: seq<string>): string
    requires |pieces| == |args| + 1
  {
    if args == [] then pieces[0] else pieces[0] + args[0] + Interleave(pieces[1..], args[1..])
  }

  /** A template with one `%s` per argument and no other `%` is filled by interleaving its text with the arguments. */
  lemma {:induction false} FormatFillsTemplate(pieces: seq<string>, args: seq<string>)
    requires |pieces| == |args| + 1
    requires forall i :: 0 <= i < |pieces| ==> '%' !in pieces[i]
    ensures Format(Template(pieces), args) == Some(Interleave(pieces, args))
  {
    if args == [] {
      FormatLiteral(pieces[0], "", args);
      assert pieces[0] + "" == pieces[0];
    } else {
      FormatFillsTemplate(pieces[1..], args[1..]);
      FormatLiteralThenPlaceholder(pieces[0], Template(pieces[1..]), args[0], args[1..]);
      assert [args[0]] + args[1..] == args;
    }
  }

  /** A `%s` with no argument left makes the formatting fail. */
  lemma FormatMissingArgument(rest: string)
    ensures Format("%s" + rest, []) == None
  {
  }

  // ---------------------------------------------------------------------------
  // Stripping leading characters

  /** `s` without its longest prefix made only of characters in `stripChars`. */
  function StripStart(s: string, stripChars: string): (r: string)
    ensures |r| <= |s| && r == s[|s| - |r|..]
    ensures forall i :: 0 <= i < |s| - |r| ==> s[i] in stripChars
    ensures r == [] || r[0] !in stripChars
  {
    if s != [] && s[0] in stripChars then StripStart(s[1..], stripChars) else s
  }

  /**
   * Any way of writing `s` as a prefix of strip characters followed by a part
   * that does not start with one gives exactly `StripStart`'s result.
   */
  lemma {:induction false} StripStartUnique(s: string, stripChars: string, prefix: string, rest: string)
    requires s == prefix + rest
    requires forall i :: 0 <= i < |prefix| ==> prefix[i] in stripChars
    requires rest == [] || rest[0] !in stripChars
    ensures StripStart(s, stripChars) == rest
  {
    if prefix == [] {
      assert s == rest;
    } else {
      assert s[1..] == prefix[1..] + rest;
      StripStartUnique(s[1..], stripChars, prefix[1..], rest);
    }
  }

  /** Stripping twice strips nothing more than stripping once. */
  lemma StripStartIdempotent(s: string, stripChars: string)
    ensures StripStart(StripStart(s, stripChars), stripChars) == StripStart(s, stripChars)
  {
    var r := StripStart(s, stripChars);
    StripStartUnique(r, stripChars, [], r);
  }
}
