/** One socket's connection object: data events push parsed frames, readers pull them. */
module NdjsonConnection {
  import opened Wrappers
  import opened StablePayload
  import opened NdjsonFraming
  import opened Whitespace

  datatype StreamError = MalformedFrame(line: string) | SocketError(message: string)

  /** What one turn of the messages() generator comes to. */
  datatype Pull = Yielded(value: Json) | Threw(error: StreamError) | Ended | Asleep

  class Connection {
    const codec: Codec
    var buffer: string
    var messages: seq<Json>
    var waiters: seq<nat>
    var done: bool
    var streamError: Option<StreamError>
    var destroyed: bool
    ghost var delivered: seq<Json>    // everything messages() has yielded

    constructor (codec: Codec)
      ensures this.codec == codec && Valid() && View() == FeedAll(codec, []) && delivered == [] && !done
    {
      this.codec := codec;
      buffer, messages, waiters, done, streamError, destroyed, delivered := "", [], [], false, None, false, [];
    }

    /** No reader sleeps while a frame is queued or the stream is over. */
    ghost predicate Valid()
      reads this
    {
      && (waiters != [] ==> messages == [] && streamError.None? && !done)
      && (destroyed ==> streamError.Some?)
    }

    /** The connection as a reader of chunks: what was yielded and what is queued are one list. */
    ghost function View(): Reader
      reads this
    {
      Reader(buffer, delivered + messages, destroyed)
    }

    method Wake() returns (woken: seq<nat>)
      modifies `waiters
      ensures waiters == [] && woken == old(waiters)
    {
      woken := [];
      while waiters != []
        invariant woken + waiters == old(waiters)
        decreases |waiters|
      {
        woken := woken + [waiters[0]];
        waiters := waiters[1..];
      }
    }

    /** One line off the buffer: blank ones are skipped, a malformed one poisons the stream. */
    method TakeLine(line: string)
      modifies `messages, `streamError, `destroyed
      ensures messages == old(messages) + ValuesOf(codec, [line])
      ensures destroyed == (old(destroyed) || IsMalformed(codec, line))
      ensures streamError == if IsMalformed(codec, line) then Some(MalformedFrame(line)) else old(streamError)
    {
      assert [line][..0] == [];
      TrimmedToNothingIffBlank(line);
      if |Trim(line)| == 0 {
        return;
      }
      var value := codec.parse(line);
      if value.Some? {
        messages := messages + [value.value];
      } else {
        streamError := Some(MalformedFrame(line));
        destroyed := true;
      }
    }

    /** The lines taken so far, and what is left of the text. */
    ghost predicate HasTaken(all: string, seen: seq<string>, before: seq<Json>, error: Option<StreamError>)
      reads this
    {
      && TextTaken(all, seen, buffer)
      && messages == before + ValuesOf(codec, seen)
      && destroyed == HasMalformed(codec, seen)
      && (if destroyed then streamError.Some? else streamError == error)
    }

    method TakeFirstLine(ghost all: string, ghost seen: seq<string>, ghost before: seq<Json>, ghost error: Option<StreamError>)
      requires HasTaken(all, seen, before, error) && IndexOfNewline(buffer) < |buffer|
      modifies `buffer, `messages, `streamError, `destroyed
      ensures HasTaken(all, seen + [old(buffer[..IndexOfNewline(buffer)])], before, error)
      ensures |buffer| < |old(buffer)|
    {
      var newline := IndexOfNewline(buffer);
      var line := buffer[..newline];
      FirstLine(all, seen, buffer);
      OneMoreLine(codec, seen, line, before);
      buffer := buffer[newline + 1..];
      TakeLine(line);
    }

    /** The loop of the data handler: complete lines are taken off the buffer until there is none. */
    method TakeLines()
      requires !destroyed
      modifies `buffer, `messages, `streamError, `destroyed
      ensures buffer == Rest(old(buffer)) && messages == old(messages) + ValuesOf(codec, Lines(old(buffer)))
      ensures destroyed == HasMalformed(codec, Lines(old(buffer)))
      ensures if destroyed then streamError.Some? else streamError == old(streamError)
    {
      ghost var all, before, error := buffer, messages, streamError;
      ghost var seen: seq<string> := [];
      assert HasTaken(all, seen, before, error);
      while IndexOfNewline(buffer) < |buffer|
        invariant HasTaken(all, seen, before, error)
        decreases |buffer|
      {
        ghost var line := buffer[..IndexOfNewline(buffer)];
        TakeFirstLine(all, seen, before, error);
        seen := seen + [line];
      }
      assert Lines(buffer) == [] && Lines(all) == seen;
    }

    /** The data handler: every complete line of the buffer is parsed, even after a malformed one, and readers are woken. */
    method OnData(chunk: string) returns (woken: seq<nat>)
      requires Valid() && !destroyed
      modifies this
      ensures Valid() && View() == Feed(codec, old(View()), chunk)
      ensures delivered == old(delivered) && done == old(done) && woken == old(waiters) && waiters == []
      ensures !destroyed ==> streamError == old(streamError)
    {
      buffer := buffer + chunk;
      TakeLines();
      woken := Wake();
      assert View().values == old(View()).values + ValuesOf(codec, Lines(old(buffer) + chunk));
    }

    method OnError(error: StreamError) returns (woken: seq<nat>)
      requires Valid()
      modifies `streamError, `done, `waiters
      ensures Valid() && View() == old(View()) && done && streamError == Some(error) && woken == old(waiters)
    {
      streamError := Some(error);
      done := true;
      woken := Wake();
    }

    method OnClose() returns (woken: seq<nat>)
      requires Valid()
      modifies `done, `waiters
      ensures Valid() && View() == old(View()) && done && streamError == old(streamError) && woken == old(waiters)
    {
      done := true;
      woken := Wake();
    }

    /** A turn of messages(): queued frames come first, then a stream error, then the end; only then is there sleep. */
    method Next(reader: nat) returns (pull: Pull)
      requires Valid()
      modifies `messages, `waiters, `delivered
      ensures Valid() && View() == old(View())
      ensures pull.Yielded? <==> old(messages) != []
      ensures pull.Yielded? ==> delivered == old(delivered) + [pull.value] && waiters == old(waiters)
      ensures !pull.Yielded? ==> delivered == old(delivered)
      ensures pull.Threw? <==> old(messages) == [] && streamError.Some?
      ensures pull.Threw? ==> streamError == Some(pull.error)
      ensures pull.Ended? <==> old(messages) == [] && streamError.None? && done
      ensures waiters == if pull.Asleep? then old(waiters) + [reader] else old(waiters)
    {
      if messages != [] {
        delivered := delivered + [messages[0]];
        pull := Yielded(messages[0]);
        messages := messages[1..];
        assert View().values == old(View()).values;
        return;
      }
      if streamError.Some? {
        return Threw(streamError.value);
      }
      if done {
        return Ended;
      }
      waiters := waiters + [reader];
      return Asleep;
    }
  }

  /** `seen` are the lines of a text taken so far, `rest` is what is left of it. */
  ghost predicate TextTaken(all: string, seen: seq<string>, rest: string) {
    Lines(all) == seen + Lines(rest) && Rest(all) == Rest(rest)
  }

  lemma {:induction false} FirstLine(all: string, seen: seq<string>, buffer: string)
    requires TextTaken(all, seen, buffer) && IndexOfNewline(buffer) < |buffer|
    ensures var n := IndexOfNewline(buffer); TextTaken(all, seen + [buffer[..n]], buffer[n + 1..])
  {
    var n := IndexOfNewline(buffer);
    assert seen + ([buffer[..n]] + Lines(buffer[n + 1..])) == seen + [buffer[..n]] + Lines(buffer[n + 1..]);
  }

  lemma {:induction false} OneMoreLine(codec: Codec, seen: seq<string>, line: string, before: seq<Json>)
    ensures before + ValuesOf(codec, seen + [line]) == before + ValuesOf(codec, seen) + ValuesOf(codec, [line])
    ensures HasMalformed(codec, seen + [line]) <==> HasMalformed(codec, seen) || IsMalformed(codec, line)
  {
    ValuesOfTwo(codec, seen, [line]);
  }
}
