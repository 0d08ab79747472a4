/** The stateful decoder: a reader over the bytes left, read line by line. */
module Decoder {
  import opened Wrappers
  import opened Json
  import opened Sse
  import opened Text
  import opened Events

  /** Why a stream has no more bytes: it ended, or the transport failed. The condition is sticky. */
  datatype Terminal = Eof | Fault(msg: string)

  /** The effect of one non-blank line on the frame being read. */
  method Accumulate(fr: Frame, trimmed: string) returns (r: Frame)
    ensures r == Feed(fr, trimmed)
  {
    r := fr;
    if "event:" <= trimmed {
      r := r.(event := TrimSpace(trimmed[6..]));
    } else if "data:" <= trimmed {
      var seg := trimmed[5..];
      if " " <= seg {
        seg := seg[1..];
      }
      if r.data == "" {
        r := r.(data := seg);
      } else {
        r := r.(data := r.data + seg);
      }
    }
  }

  class SSEDecoder {
    var rest: string
    const terminal: Terminal
    const parse: string -> Option<Value>

    constructor (input: string, terminal: Terminal, parse: string -> Option<Value>)
      ensures rest == input && this.terminal == terminal && this.parse == parse
    {
      this.rest := input;
      this.terminal := terminal;
      this.parse := parse;
    }

    /** The buffered reader: everything up to and including the next line feed, or all that is left. */
    method ReadString() returns (line: string, err: Option<Terminal>)
      modifies this`rest
      ensures old(rest) == line + rest
      ensures err == None ==> old(rest) != "" && line == old(rest)[..LineEnd(old(rest))] && EndsInLf(line)
      ensures err != None ==> err == Some(terminal) && rest == "" && !EndsInLf(line)
      ensures line != "" ==> Lines(old(rest)) == [TrimEol(line)] + Lines(rest)
    {
      if rest == "" {
        return "", Some(terminal);
      }
      var n := LineEnd(rest);
      line := rest[..n];
      err := if line[n - 1] == '\n' then None else Some(terminal);
      rest := rest[n..];
    }

    /**
     The next frame. A frame takes at least one byte, which is what makes every loop
     over the decoder end.
     */
    method NextFrame() returns (fr: Frame, err: Option<Terminal>)
      modifies this`rest
      ensures err == None ==> |rest| < |old(rest)| && Frames(old(rest)) == [fr] + Frames(rest)
      ensures err != None ==> err == Some(terminal) && rest == "" && Frames(old(rest)) == []
    {
      fr := Frame("", "");
      var got := false;
      while true
        invariant Pending(fr) ==> got
        invariant got ==> |rest| < |old(rest)|
        invariant |rest| <= |old(rest)|
        invariant FramesFrom(fr, Lines(rest)) == Frames(old(rest))
        decreases |rest|
      {
        var line, fault := ReadString();
        if line != "" {
          got := true;
          var trimmed := TrimEol(line);
          FramesFromCons(fr, trimmed, Lines(rest));
          if trimmed == "" {
            if fr.event != "" || fr.data != "" {
              return fr, None;
            }
          } else {
            fr := Accumulate(fr, trimmed);
          }
        }
        if fault != None {
          assert Lines(rest) == [];
          if got && (fr.event != "" || fr.data != "") {
            return fr, None;
          }
          return fr, fault;
        }
      }
    }

    /** The next semantic event, skipping the frames that mean nothing. */
    method Next() returns (ev: StreamEvent, err: Option<Terminal>)
      modifies this`rest
      ensures err == None ==> |rest| < |old(rest)| && EventsOf(parse, old(rest)) == [ev] + EventsOf(parse, rest)
      ensures err != None ==> err == Some(terminal) && rest == "" && EventsOf(parse, old(rest)) == []
    {
      ev := StreamEvent("");
      while true
        invariant |rest| <= |old(rest)|
        invariant EventsOf(parse, rest) == EventsOf(parse, old(rest))
        decreases |rest|
      {
        ghost var before := Frames(rest);
        var fr, fault := NextFrame();
        if fault != None {
          return ev, fault;
        }
        assert before[1..] == Frames(rest);
        if fr.data == "[DONE]" {
          return StreamEvent("done", done := true), None;
        }
        if fr.data == "" {
          continue;
        }
        match AsObject(parse(fr.data)) {
          case None =>
            continue;
          case Some(obj) =>
            match DecodeEvent(fr.event, obj) {
              case None =>
                continue;
              case Some(decoded) =>
                return decoded, None;
            }
        }
      }
    }
  }
}
