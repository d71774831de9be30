/** The .NET string operations the generator relies on. */
module Text {

  /** `string.Join(separator, parts)`. */
  function Join(parts: seq<string>, separator: string): string
  {
    if parts == [] then ""
    else if |parts| == 1 then parts[0]
    else parts[0] + separator + Join(parts[1..], separator)
  }

  /** The generator's `ComaJoin` extension: parts separated by ", ". */
  function ComaJoin(parts: seq<string>): string
  {
    Join(parts, ", ")
  }

  /** `s.Split(separator)`: the pieces between the separators, empty pieces kept. */
  function Split(s: string, separator: char): (parts: seq<string>)
    ensures |parts| > 0
  {
    if s == [] then [""]
    else
      var rest := Split(s[1..], separator);
      if s[0] == separator then [""] + rest
      else [[s[0]] + rest[0]] + rest[1..]
  }

  /** Splitting loses nothing: joining the pieces with the separator gives the
      input back. */
  lemma {:induction false} SplitJoinRoundTrip(s: string, separator: char)
    ensures Join(Split(s, separator), [separator]) == s
  {
    if s != [] {
      SplitJoinRoundTrip(s[1..], separator);
      var rest := Split(s[1..], separator);
      var parts := Split(s, separator);
      var sep := [separator];
      if s[0] == separator {
        assert parts == [""] + rest;
        assert parts[1..] == rest;
        assert Join(parts, sep) == "" + sep + Join(rest, sep);
        assert s == sep + s[1..];
      } else {
        var head := [s[0]] + rest[0];
        assert parts == [head] + rest[1..];
        if |rest| == 1 {
          assert Join(parts, sep) == head;
          assert Join(rest, sep) == rest[0];
        } else {
          assert parts[1..] == rest[1..];
          assert Join(parts, sep) == head + sep + Join(rest[1..], sep);
          assert Join(rest, sep) == rest[0] + sep + Join(rest[1..], sep);
        }
        assert s == [s[0]] + s[1..];
      }
    }
  }

  /** No piece of a split contains the separator. */
  lemma {:induction false} SplitPiecesLackSeparator(s: string, separator: char)
    ensures forall p <- Split(s, separator) :: separator !in p
  {
    if s != [] {
      SplitPiecesLackSeparator(s[1..], separator);
      var rest := Split(s[1..], separator);
      if s[0] == separator {
        assert Split(s, separator) == [""] + rest;
      } else {
        assert Split(s, separator) == [[s[0]] + rest[0]] + rest[1..];
        assert rest[0] in rest;
        forall p <- rest[1..] ensures p in rest {
        }
      }
    }
  }

  /** `string.Format(format, args)` for the placeholders `{0}` to `{9}`; any other
      text, including a placeholder without an argument, is copied unchanged. */
  function Fmt(format: string, args: seq<string>): string
    decreases |format|
  {
    if |format| >= 3 && format[0] == '{' && '0' <= format[1] <= '9' && format[2] == '}'
       && (format[1] as int) - ('0' as int) < |args|
    then args[(format[1] as int) - ('0' as int)] + Fmt(format[3..], args)
    else if format == [] then ""
    else [format[0]] + Fmt(format[1..], args)
  }

  /** `char.IsWhiteSpace`: the Unicode space separators plus the control
      characters U+0009 to U+000D and U+0085. */
  predicate IsWhiteSpace(c: char)
  {
    c == ' ' || '\t' <= c <= '\r' || c == '\U{0085}' || c == '\U{00A0}' || c == '\U{1680}'
    || '\U{2000}' <= c <= '\U{200A}' || c == '\U{2028}' || c == '\U{2029}'
    || c == '\U{202F}' || c == '\U{205F}' || c == '\U{3000}'
  }

  /** `string.IsNullOrWhiteSpace` of a non-null string. */
  predicate IsEmptyOrWhiteSpace(s: string)
  {
    forall i :: 0 <= i < |s| ==> IsWhiteSpace(s[i])
  }

  /** `s.StartsWith(prefix)`, compared ordinally. */
  predicate StartsWith(s: string, prefix: string)
  {
    prefix <= s
  }

  lemma StartsWithConcat(prefix: string, rest: string)
    ensures StartsWith(prefix + rest, prefix)
  {
  }

  /** A text made of an opening, a middle and a closing: each part sits at
      its place, and nothing else is in it. */
  lemma Enclosed(front: string, middle: string, back: string)
    ensures var s := front + middle + back;
      && |s| == |front| + |middle| + |back|
      && StartsWith(s, front)
      && s[|front|..|s| - |back|] == middle
      && s[|s| - |back|..] == back
  {
    var s := front + middle + back;
    assert s[..|front|] == front;
    assert s[|front|..|s| - |back|] == middle;
    assert s[|s| - |back|..] == back;
  }

  lemma StartsWithTransitive(s: string, middle: string, prefix: string)
    requires StartsWith(s, middle) && StartsWith(middle, prefix)
    ensures StartsWith(s, prefix)
  {
    assert s[..|prefix|] == middle[..|prefix|];
  }

  /** The lines after a header line keep their positions, shifted by one. */
  lemma LinesAfterHeader(header: string, lines: seq<string>)
    ensures |[header] + lines| == 1 + |lines|
    ensures ([header] + lines)[0] == header
    ensures forall i :: 0 <= i < |lines| ==> ([header] + lines)[i + 1] == lines[i]
  {
  }

  /** Appending a line after a header extends the lines under it. */
  lemma AppendAfterHeader(header: string, lines: seq<string>, line: string)
    ensures [header] + lines + [line] == [header] + (lines + [line])
  {
  }

  /** Inserting a block between the two middle parts of a text: the text
      with the block is the one without it, cut where the block goes. */
  lemma InsertBlock(header: seq<string>, front: seq<string>, block: seq<string>, back: seq<string>,
                    closing: seq<string>, trailer: seq<string>)
    ensures var without := header + (front + [] + back) + closing + trailer;
      var k := |header| + |front|;
      && k == |without| - |trailer| - |closing| - |back|
      && header + (front + block + back) + closing + trailer == without[..k] + block + without[k..]
  {
    var without := header + (front + [] + back) + closing + trailer;
    var k := |header| + |front|;
    assert without == (header + front) + (back + closing + trailer);
    assert without[..k] == header + front;
    assert without[k..] == back + closing + trailer;
  }

  /** A block of lines between a header and the rest keeps its lines, at
      positions shifted by the header's length. */
  lemma BlockInside(header: seq<string>, block: seq<string>, rest: seq<string>)
    ensures forall l <- block :: l in header + block + rest
    ensures forall i :: 0 <= i < |block| ==> (header + block + rest)[|header| + i] == block[i]
  {
  }

  /** A prefix followed by a call's opening keeps that opening as prefix. */
  lemma StartsWithOpening(prefix: string, opening: string, body: string, closing: string)
    ensures StartsWith(prefix + (opening + body + closing), prefix + opening)
  {
    assert prefix + (opening + body + closing) == (prefix + opening) + (body + closing);
  }
}
