/** Reading an opened stream: server-sent events become chunks until the first [DONE]. */
module Streaming {
  import opened Prelude
  import opened Quality
  import opened Payment

  /** What the event source yields: an event's data, or an error of the connection or the framing. */
  datatype Event = Data(text: string) | Broken

  /** A chunk of the answer, as parsed from an event's trimmed data. */
  datatype Chunk = Chunk(text: string)

  function TrimStart(u: Unicode, s: string): (r: string)
    ensures r != "" ==> !u.isSpace(r[0])
  {
    if s != "" && u.isSpace(s[0]) then TrimStart(u, s[1..]) else s
  }

  function TrimEnd(u: Unicode, s: string): (r: string)
    ensures r <= s && (r != "" ==> !u.isSpace(r[|r| - 1]))
  {
    if s != "" && u.isSpace(s[|s| - 1]) then TrimEnd(u, s[..|s| - 1]) else s
  }

  function Trim(u: Unicode, s: string): string {
    TrimEnd(u, TrimStart(u, s))
  }

  /** The text without the whitespace at its ends: what is left over on either side is blank, and it neither starts nor ends with any. */
  lemma {:induction false} TrimExact(u: Unicode, before: string, middle: string, after: string)
    requires Blank(u, before) && Blank(u, after)
    requires middle != "" ==> !u.isSpace(middle[0]) && !u.isSpace(middle[|middle| - 1])
    ensures Trim(u, before + middle + after) == middle
  {
    if before != "" {
      TrimExact(u, before[1..], middle, after);
      assert (before + middle + after)[1..] == before[1..] + middle + after;
    } else {
      assert before + middle + after == middle + after;
      if middle != "" {
        assert (middle + after)[0] == middle[0];
        TrimEndExact(u, middle, after);
      } else {
        assert middle + after == after;
        TrimStartBlank(u, after);
      }
    }
  }

  lemma {:induction false} TrimEndExact(u: Unicode, middle: string, after: string)
    requires Blank(u, after) && middle != "" && !u.isSpace(middle[|middle| - 1])
    ensures TrimEnd(u, middle + after) == middle
  {
    if after == "" {
      assert middle + after == middle;
    } else {
      TrimEndExact(u, middle, after[..|after| - 1]);
      assert (middle + after)[..|middle + after| - 1] == middle + after[..|after| - 1];
    }
  }

  lemma {:induction false} TrimStartBlank(u: Unicode, s: string)
    requires Blank(u, s)
    ensures TrimStart(u, s) == ""
  {
    if s != "" {
      TrimStartBlank(u, s[1..]);
    }
  }

  /**
   One item for each event before the first [DONE], in order: the parsed chunk, or an error item for a broken event and for
   data that does not parse, after which reading goes on. Nothing from the first [DONE] on is read.
   */
  method ReadEvents(u: Unicode, parse: string -> Option<Chunk>, events: seq<Event>)
    returns (items: seq<Result<Chunk, ClientError>>)
    ensures |items| <= |events|
    ensures forall i :: 0 <= i < |items| ==>
              if events[i].Broken? then items[i] == Err(StreamError)
              else
                var data := Trim(u, events[i].text);
                data != "[DONE]" && items[i] == if parse(data).Some? then Ok(parse(data).value) else Err(StreamError)
    ensures |items| < |events| ==> events[|items|].Data? && Trim(u, events[|items|].text) == "[DONE]"
  {
    items := [];
    var i := 0;
    while i < |events|
      invariant i == |items| <= |events|
      invariant forall j :: 0 <= j < i ==>
                  if events[j].Broken? then items[j] == Err(StreamError)
                  else
                    var data := Trim(u, events[j].text);
                    data != "[DONE]" && items[j] == if parse(data).Some? then Ok(parse(data).value) else Err(StreamError)
    {
      if events[i].Data? {
        var data := Trim(u, events[i].text);
        if data == "[DONE]" {
          return;
        }
        var chunk := parse(data);
        items := items + [if chunk.Some? then Ok(chunk.value) else Err(StreamError)];
      } else {
        items := items + [Err(StreamError)];
      }
      i := i + 1;
    }
  }
}
