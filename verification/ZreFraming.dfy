/** A message on the wire: its frame, then one frame for each part of its content. */
module ZreFraming {
  import opened Basics
  import opened ZreGrammar
  import opened ZreRoundTrip

  datatype Part = Part(data: Octets, more: bool)

  /** Only these kinds carry content. */
  predicate HasContent(m: Message) {
    m.Whisper? || m.Shout?
  }

  /** Content that is missing is sent as one empty frame; content without frames as no frame. */
  function ContentFrames(m: Message): seq<Octets> {
    if !HasContent(m) then []
    else match m.content case None => [[]] case Some(frames) => frames
  }

  /** Every frame but the last announces another. */
  function Multipart(frames: seq<Octets>): (parts: seq<Part>)
    ensures |parts| == |frames|
    ensures forall i :: 0 <= i < |parts| ==> parts[i] == Part(frames[i], i < |frames| - 1)
  {
    seq(|frames|, i requires 0 <= i < |frames| => Part(frames[i], i < |frames| - 1))
  }

  /** Send the frame of a message and then its content, counting down the frames that are left. */
  method Send(m: Message, frame: Octets) returns (parts: seq<Part>)
    ensures parts == Multipart([frame] + ContentFrames(m))
    ensures !HasContent(m) ==> parts == [Part(frame, false)]
    ensures HasContent(m) && m.content.None? ==> parts == [Part(frame, true), Part([], false)]
    ensures HasContent(m) && m.content.Some? ==> parts == Multipart([frame] + m.content.value)
  {
    var left: nat := 1;
    if HasContent(m) {
      left := left + if m.content.Some? then |m.content.value| else 1;
    }
    left := left - 1;
    parts := [Part(frame, left != 0)];
    if HasContent(m) {
      if m.content.Some? {
        var frames := m.content.value;
        var i := 0;
        while i < |frames|
          invariant 0 <= i <= |frames| && left == |frames| - i && |parts| == i + 1
          invariant parts[0] == Part(frame, |frames| != 0)
          invariant forall k :: 0 <= k < i ==> parts[k + 1] == Part(frames[k], k < |frames| - 1)
        {
          left := left - 1;
          parts := parts + [Part(frames[i], left != 0)];
          i := i + 1;
        }
      } else {
        parts := parts + [Part([], false)];
      }
    }
  }

  /** The frames up to the first that announces no other, and what follows them. */
  function TakeFrames(parts: seq<Part>): (seq<Octets>, seq<Part>) {
    if parts == [] then ([], [])
    else if !parts[0].more then ([parts[0].data], parts[1..])
    else
      var (frames, rest) := TakeFrames(parts[1..]);
      ([parts[0].data] + frames, rest)
  }

  /**
   Receive one message: decode the first frame; only WHISPER and SHOUT take the
   frames that it announces, any others stay to be received next.
   */
  function Receive(parts: seq<Part>): (Outcome, seq<Part>)
    requires parts != []
  {
    var (content, rest) := if parts[0].more then TakeFrames(parts[1..]) else ([], parts[1..]);
    var outcome := GetMessage(parts[0].data, content);
    (outcome, if outcome.Decoded? && HasContent(outcome.message) then rest else parts[1..])
  }

  lemma {:induction false} TakeFramesBack(frames: seq<Octets>, later: seq<Part>)
    requires frames != []
    ensures TakeFrames(Multipart(frames) + later) == (frames, later)
    decreases |frames|
  {
    var parts := Multipart(frames) + later;
    assert parts[0] == Multipart(frames)[0];
    if |frames| == 1 {
      assert parts[1..] == later && frames == [frames[0]];
    } else {
      TakeFramesBack(frames[1..], later);
      assert parts[1..] == Multipart(frames[1..]) + later;
      assert frames == [frames[0]] + frames[1..];
    }
  }

  /**
   A message that was sent is received again with the same content frames,
   whatever comes after it: no content arrives as one empty frame, empty
   content as empty content.
   */
  lemma FramingRoundTrip(m: Message, order: seq<Octets>, later: seq<Part>)
    requires Representable(m) && OrderFor(m, order)
    ensures var parts := Multipart([PutMessage(m, HeaderPairs(m, order))] + ContentFrames(m));
            Receive(parts + later) == (Decoded(Received(m, ContentFrames(m)), []), later)
  {
    var frame := PutMessage(m, HeaderPairs(m, order));
    RoundTrip(m, order, [], ContentFrames(m));
    assert frame + [] == frame;
    ReceiveParts(m, frame, later);
  }

  lemma ReceiveParts(m: Message, frame: Octets, later: seq<Part>)
    requires GetMessage(frame, ContentFrames(m)) == Decoded(Received(m, ContentFrames(m)), [])
    ensures Receive(Multipart([frame] + ContentFrames(m)) + later) == (Decoded(Received(m, ContentFrames(m)), []), later)
  {
    var content := ContentFrames(m);
    var parts := Multipart([frame] + content) + later;
    assert parts[0] == Part(frame, content != []);
    if content != [] {
      TakeFramesBack(content, later);
      assert parts[1..] == Multipart(content) + later;
    } else {
      assert parts[1..] == later;
    }
  }

  // ---- receiving anything ----

  /** The first `k` parts are one message: each but the last announces the next, and nothing is missing but what never came. */
  predicate WholeTo(parts: seq<Part>, k: nat) {
    && 0 < k <= |parts|
    && (forall i :: 0 <= i < k - 1 ==> parts[i].more)
    && (k < |parts| ==> !parts[k - 1].more)
  }

  lemma {:induction false} TakeFramesTakes(parts: seq<Part>) returns (k: nat)
    requires parts != []
    ensures WholeTo(parts, k) && TakeFrames(parts).1 == parts[k..]
    ensures |TakeFrames(parts).0| == k && forall i :: 0 <= i < k ==> TakeFrames(parts).0[i] == parts[i].data
    decreases |parts|
  {
    if !parts[0].more || |parts| == 1 {
      k := 1;
      if |parts| == 1 {
        assert parts[1..] == [];
      }
    } else {
      var rest := TakeFramesTakes(parts[1..]);
      k := rest + 1;
      forall i | 0 <= i < k - 1 ensures parts[i].more {
        assert i > 0 ==> parts[1..][i - 1].more;
      }
    }
  }

  /**
   A WHISPER or SHOUT takes the frames up to the first that announces no other as
   its content; any other frame, decoded or not, leaves what it announces to be
   received next.
   */
  lemma ReceiveTakes(parts: seq<Part>) returns (k: nat)
    requires parts != []
    ensures var (outcome, rest) := Receive(parts);
            && 0 < k <= |parts| && rest == parts[k..]
            && (if outcome.Decoded? && HasContent(outcome.message) then
                  && WholeTo(parts, k) && outcome.message.content.Some?
                  && |outcome.message.content.value| == k - 1
                  && (forall i :: 1 <= i < k ==> outcome.message.content.value[i - 1] == parts[i].data)
                else k == 1)
  {
    k := 1;
    if parts[0].more && |parts| > 1 {
      var n := TakeFramesTakes(parts[1..]);
      if Receive(parts).0.Decoded? && HasContent(Receive(parts).0.message) {
        k := n + 1;
        forall i | 0 <= i < k - 1 ensures parts[i].more {
          assert i > 0 ==> parts[1..][i - 1].more;
        }
      }
    }
    ContentIsGiven(parts[0].data, if parts[0].more then TakeFrames(parts[1..]).0 else []);
  }

  lemma ContentIsGiven(b: Octets, content: seq<Octets>)
    ensures var r := GetMessage(b, content); r.Decoded? && HasContent(r.message) ==> r.message.content == Some(content)
  {
  }
}
