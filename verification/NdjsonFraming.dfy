/** Newline-delimited JSON over a socket: frames, chunks and what a reader gets of them. */
module NdjsonFraming {
  import opened Wrappers
  import opened StablePayload
  import opened Whitespace

  /** JSON.stringify and JSON.parse; parsing a malformed text gives None. */
  datatype Codec = Codec(stringify: Json -> string, parse: string -> Option<Json>)

  /** The value's text fits on one line, is not blank and reads back as the value. */
  predicate IsFaithful(codec: Codec, value: Json) {
    var text := codec.stringify(value);
    '\n' !in text && !IsBlank(text) && codec.parse(text) == Some(value)
  }

  // ---- Text and lines ----

  /** buffer.indexOf("\n"), with the length for a miss. */
  function IndexOfNewline(text: string): (n: nat)
    ensures n <= |text|
  {
    if text == "" || text[0] == '\n' then 0 else 1 + IndexOfNewline(text[1..])
  }

  lemma {:induction false} IndexOfNewlineFinds(text: string)
    ensures var n := IndexOfNewline(text); '\n' !in text[..n] && (n < |text| ==> text[n] == '\n')
  {
    if text != "" && text[0] != '\n' {
      IndexOfNewlineFinds(text[1..]);
      var n := IndexOfNewline(text);
      assert text[..n] == [text[0]] + text[1..][..n - 1];
    }
  }

  /** The complete lines of a text... */
  function Lines(text: string): seq<string>
    decreases |text|
  {
    var n := IndexOfNewline(text);
    if n == |text| then [] else [text[..n]] + Lines(text[n + 1..])
  }

  /** ...and what follows the last of them. */
  function Rest(text: string): string
    decreases |text|
  {
    var n := IndexOfNewline(text);
    if n == |text| then text else Rest(text[n + 1..])
  }

  function Concat(chunks: seq<string>): string {
    if chunks == [] then "" else Concat(chunks[..|chunks| - 1]) + chunks[|chunks| - 1]
  }

  lemma {:induction false} FirstNewlineIs(text: string, n: nat)
    requires n < |text| && text[n] == '\n' && '\n' !in text[..n]
    ensures IndexOfNewline(text) == n
  {
    var m := IndexOfNewline(text);
    IndexOfNewlineFinds(text);
    assert forall i :: 0 <= i < n ==> text[..n][i] == text[i];
    assert forall i :: 0 <= i < m ==> text[..m][i] == text[i];
  }

  /** Reading a text in two pieces gives the same lines, if the rest of the first is kept for the second. */
  lemma {:induction false} LinesOfTwo(a: string, b: string)
    ensures Lines(a + b) == Lines(a) + Lines(Rest(a) + b)
    ensures Rest(a + b) == Rest(Rest(a) + b)
    decreases |a|
  {
    var n := IndexOfNewline(a);
    IndexOfNewlineFinds(a);
    if n < |a| {
      assert (a + b)[..n] == a[..n];
      FirstNewlineIs(a + b, n);
      assert (a + b)[n + 1..] == a[n + 1..] + b;
      LinesOfTwo(a[n + 1..], b);
    }
  }

  // ---- Frames ----

  function ValuesOf(codec: Codec, lines: seq<string>): seq<Json> {
    if lines == [] then []
    else
      var n := |lines| - 1;
      ValuesOf(codec, lines[..n]) +
      if IsBlank(lines[n]) || codec.parse(lines[n]).None? then [] else [codec.parse(lines[n]).value]
  }

  predicate IsMalformed(codec: Codec, line: string) {
    !IsBlank(line) && codec.parse(line).None?
  }

  predicate HasMalformed(codec: Codec, lines: seq<string>) {
    exists i :: 0 <= i < |lines| && IsMalformed(codec, lines[i])
  }

  lemma {:induction false} ValuesOfTwo(codec: Codec, a: seq<string>, b: seq<string>)
    ensures ValuesOf(codec, a + b) == ValuesOf(codec, a) + ValuesOf(codec, b)
  {
    if b == [] {
      assert a + b == a;
    } else {
      var n := |b| - 1;
      assert (a + b)[..|a| + n] == a + b[..n];
      ValuesOfTwo(codec, a, b[..n]);
    }
  }

  lemma {:induction false} MalformedOfTwo(codec: Codec, a: seq<string>, b: seq<string>)
    ensures HasMalformed(codec, a + b) <==> HasMalformed(codec, a) || HasMalformed(codec, b)
  {
    if HasMalformed(codec, a) {
      var i :| 0 <= i < |a| && IsMalformed(codec, a[i]);
      assert IsMalformed(codec, (a + b)[i]);
    }
    if HasMalformed(codec, b) {
      var i :| 0 <= i < |b| && IsMalformed(codec, b[i]);
      assert IsMalformed(codec, (a + b)[|a| + i]);
    }
  }

  /** send(): one value, one line. */
  function Encode(codec: Codec, values: seq<Json>): string {
    if values == [] then "" else codec.stringify(values[0]) + "\n" + Encode(codec, values[1..])
  }

  lemma {:induction false} LinesOfFrame(text: string, rest: string)
    requires '\n' !in text
    ensures Lines(text + "\n" + rest) == [text] + Lines(rest) && Rest(text + "\n" + rest) == Rest(rest)
  {
    var all := text + "\n" + rest;
    assert all[..|text|] == text && all[|text| + 1..] == rest;
    FirstNewlineIs(all, |text|);
  }

  lemma {:induction false} EncodedLines(codec: Codec, values: seq<Json>)
    requires forall i :: 0 <= i < |values| ==> IsFaithful(codec, values[i])
    ensures Rest(Encode(codec, values)) == "" && !HasMalformed(codec, Lines(Encode(codec, values)))
    ensures ValuesOf(codec, Lines(Encode(codec, values))) == values
  {
    if values == [] {
    } else {
      var text, rest := codec.stringify(values[0]), Encode(codec, values[1..]);
      assert IsFaithful(codec, values[0]);
      LinesOfFrame(text, rest);
      EncodedLines(codec, values[1..]);
      ValuesOfTwo(codec, [text], Lines(rest));
      MalformedOfTwo(codec, [text], Lines(rest));
      OneFrame(codec, text);
      assert values == [values[0]] + values[1..];
    }
  }

  lemma {:induction false} OneFrame(codec: Codec, text: string)
    requires !IsBlank(text) && codec.parse(text).Some?
    ensures ValuesOf(codec, [text]) == [codec.parse(text).value] && !HasMalformed(codec, [text])
  {
  }

  // ---- A reader ----

  /**
   * What data events make of a connection. A malformed line destroys the socket: the rest of its chunk is still
   * parsed, but no later chunk arrives.
   */
  datatype Reader = Reader(buffer: string, values: seq<Json>, destroyed: bool)

  function Feed(codec: Codec, r: Reader, chunk: string): Reader {
    if r.destroyed then r
    else
      var lines := Lines(r.buffer + chunk);
      Reader(Rest(r.buffer + chunk), r.values + ValuesOf(codec, lines), HasMalformed(codec, lines))
  }

  function FeedAll(codec: Codec, chunks: seq<string>): Reader {
    if chunks == [] then Reader("", [], false) else Feed(codec, FeedAll(codec, chunks[..|chunks| - 1]), chunks[|chunks| - 1])
  }

  /**
   * How a text is cut into chunks does not matter as long as no line of it is malformed: the reader has the values
   * of all complete lines and keeps the rest.
   */
  lemma {:induction false} ChunksDoNotMatter(codec: Codec, chunks: seq<string>)
    requires !HasMalformed(codec, Lines(Concat(chunks)))
    ensures FeedAll(codec, chunks) == Reader(Rest(Concat(chunks)), ValuesOf(codec, Lines(Concat(chunks))), false)
  {
    if chunks == [] {
    } else {
      var n := |chunks| - 1;
      var before := Concat(chunks[..n]);
      LinesOfTwo(before, chunks[n]);
      MalformedOfTwo(codec, Lines(before), Lines(Rest(before) + chunks[n]));
      ValuesOfTwo(codec, Lines(before), Lines(Rest(before) + chunks[n]));
      ChunksDoNotMatter(codec, chunks[..n]);
    }
  }

  /** Values sent come out in order, however the sent text is cut into chunks. */
  lemma {:induction false} RoundTrip(codec: Codec, values: seq<Json>, chunks: seq<string>)
    requires forall i :: 0 <= i < |values| ==> IsFaithful(codec, values[i])
    requires Concat(chunks) == Encode(codec, values)
    ensures FeedAll(codec, chunks) == Reader("", values, false)
  {
    EncodedLines(codec, values);
    ChunksDoNotMatter(codec, chunks);
  }

  /** And at every moment before that, what has come out is a prefix of what was sent. */
  lemma {:induction false} PartialRoundTrip(codec: Codec, values: seq<Json>, chunks: seq<string>)
    requires forall i :: 0 <= i < |values| ==> IsFaithful(codec, values[i])
    requires Concat(chunks) <= Encode(codec, values)
    ensures FeedAll(codec, chunks).values <= values && !FeedAll(codec, chunks).destroyed
  {
    var got, all := Concat(chunks), Encode(codec, values);
    var more := all[|got|..];
    assert got + more == all;
    EncodedLines(codec, values);
    LinesOfTwo(got, more);
    MalformedOfTwo(codec, Lines(got), Lines(Rest(got) + more));
    ValuesOfTwo(codec, Lines(got), Lines(Rest(got) + more));
    ChunksDoNotMatter(codec, chunks);
  }

  // ---- Malformed frames ----

  /** No frame worth delivering comes after a malformed one. */
  ghost predicate EndsAtMalformed(codec: Codec, lines: seq<string>) {
    forall i :: 0 <= i < |lines| && IsMalformed(codec, lines[i]) ==> ValuesOf(codec, lines[i + 1..]) == []
  }

  /** Whatever the chunks, a destroyed reader has the values up to the chunk that held the malformed line. */
  lemma {:induction false} DestroyedReaderHasAPrefix(codec: Codec, chunks: seq<string>) returns (k: nat)
    ensures k <= |Lines(Concat(chunks))|
    ensures FeedAll(codec, chunks).values == ValuesOf(codec, Lines(Concat(chunks))[..k])
    ensures FeedAll(codec, chunks).destroyed == HasMalformed(codec, Lines(Concat(chunks))[..k])
    ensures !FeedAll(codec, chunks).destroyed ==>
              k == |Lines(Concat(chunks))| && FeedAll(codec, chunks).buffer == Rest(Concat(chunks))
  {
    if chunks == [] {
      k := 0;
    } else {
      var n := |chunks| - 1;
      var before := Concat(chunks[..n]);
      var first, second := Lines(before), Lines(Rest(before) + chunks[n]);
      LinesOfTwo(before, chunks[n]);
      k := DestroyedReaderHasAPrefix(codec, chunks[..n]);
      if FeedAll(codec, chunks[..n]).destroyed {
        assert (first + second)[..k] == first[..k];
      } else {
        k := |first + second|;
        assert first[..|first|] == first && (first + second)[..k] == first + second;
        ValuesOfTwo(codec, first, second);
        MalformedOfTwo(codec, first, second);
      }
    }
  }

  /** The text up to and including its i-th line. */
  lemma {:induction false} TextOfLines(text: string, i: nat) returns (n: nat)
    requires i < |Lines(text)|
    ensures n <= |text| && Lines(text[..n]) == Lines(text)[..i + 1] && Rest(text[..n]) == ""
    decreases |text|
  {
    var m := IndexOfNewline(text);
    IndexOfNewlineFinds(text);
    if i == 0 {
      n := m + 1;
      assert text[..n][..m] == text[..m] && text[..n][m] == '\n' && text[..n][m + 1..] == "";
      FirstNewlineIs(text[..n], m);
      assert Lines(text)[..1] == [text[..m]];
    } else {
      var k := TextOfLines(text[m + 1..], i - 1);
      n := m + 1 + k;
      assert text[..n][..m] == text[..m] && text[..n][m] == '\n' && text[..n][m + 1..] == text[m + 1..][..k];
      FirstNewlineIs(text[..n], m);
      assert Lines(text)[..i + 1] == [text[..m]] + Lines(text[m + 1..])[..i];
    }
  }

  lemma {:induction false} FeedTwo(codec: Codec, a: string, b: string)
    requires HasMalformed(codec, Lines(a))
    ensures Concat([a, b]) == a + b
    ensures FeedAll(codec, [a, b]).values == ValuesOf(codec, Lines(a))
  {
    assert [a, b][..1] == [a] && [a][..0] == [] && "" + a == a;
    assert Concat([a]) == a;
    assert FeedAll(codec, [a]) == Reader(Rest(a), ValuesOf(codec, Lines(a)), true);
  }

  /** Cut right after a malformed line: what follows it is lost. */
  lemma {:induction false} CutAfterMalformed(codec: Codec, text: string, i: nat) returns (chunks: seq<string>)
    requires i < |Lines(text)| && IsMalformed(codec, Lines(text)[i]) && ValuesOf(codec, Lines(text)[i + 1..]) != []
    ensures Concat(chunks) == text && FeedAll(codec, chunks).values != ValuesOf(codec, Lines(text))
  {
    var lines := Lines(text);
    var n := TextOfLines(text, i);
    var first, second := lines[..i + 1], lines[i + 1..];
    assert first + second == lines && text[..n] + text[n..] == text;
    assert IsMalformed(codec, first[i]);
    FeedTwo(codec, text[..n], text[n..]);
    ValuesOfTwo(codec, first, second);
    chunks := [text[..n], text[n..]];
  }

  lemma {:induction false} NoCutMatters(codec: Codec, text: string, chunks: seq<string>)
    requires Concat(chunks) == text && EndsAtMalformed(codec, Lines(text))
    ensures FeedAll(codec, chunks).values == ValuesOf(codec, Lines(text))
  {
    var k := DestroyedReaderHasAPrefix(codec, chunks);
    if FeedAll(codec, chunks).destroyed {
      NothingFollows(codec, Lines(text), k);
    } else {
      assert Lines(text)[..k] == Lines(text);
    }
  }

  /**
   * With malformed lines in the text, all ways of cutting it deliver the same values if and only if no value
   * follows a malformed line: one that does is delivered only when it shares a chunk with that line.
   */
  lemma {:induction false} ChunksDoNotMatterIff(codec: Codec, text: string)
    ensures (forall chunks :: Concat(chunks) == text ==> FeedAll(codec, chunks).values == ValuesOf(codec, Lines(text)))
            <==> EndsAtMalformed(codec, Lines(text))
  {
    if EndsAtMalformed(codec, Lines(text)) {
      forall chunks | Concat(chunks) == text ensures FeedAll(codec, chunks).values == ValuesOf(codec, Lines(text)) {
        NoCutMatters(codec, text, chunks);
      }
    } else {
      var i :| 0 <= i < |Lines(text)| && IsMalformed(codec, Lines(text)[i]) && ValuesOf(codec, Lines(text)[i + 1..]) != [];
      var chunks := CutAfterMalformed(codec, text, i);
    }
  }

  lemma {:induction false} NothingFollows(codec: Codec, lines: seq<string>, k: nat)
    requires EndsAtMalformed(codec, lines) && k <= |lines| && HasMalformed(codec, lines[..k])
    ensures ValuesOf(codec, lines[..k]) == ValuesOf(codec, lines)
  {
    var i :| 0 <= i < k && IsMalformed(codec, lines[..k][i]);
    assert lines[i + 1..] == lines[i + 1..k] + lines[k..] && lines[..k] + lines[k..] == lines;
    ValuesOfTwo(codec, lines[i + 1..k], lines[k..]);
    ValuesOfTwo(codec, lines[..k], lines[k..]);
  }
}
