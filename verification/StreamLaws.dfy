// Printing, framing and parsing composed: a stream of messages survives any
// cutting of its bytes.
module StreamLaws {
  import opened Results
  import opened Codec
  import opened CodecLaws
  import opened Framing

  predicate AllSerializable(ms: seq<IrcMessage>) {
    forall m :: m in ms ==> Serialize(m).Success?
  }

  /** The bytes of the messages, one after another. */
  function Stream(ms: seq<IrcMessage>): string
    requires AllSerializable(ms)
  {
    if ms == [] then "" else Serialize(ms[0]).value + Stream(ms[1..])
  }

  function Bodies(ms: seq<IrcMessage>): (bodies: seq<string>)
    requires AllSerializable(ms)
    ensures |bodies| == |ms|
    ensures forall i :: 0 <= i < |ms| ==> bodies[i] + CRLF == Serialize(ms[i]).value
  {
    if ms == [] then []
    else
      SerializedShape(ms[0]);
      [Body(Serialize(ms[0]).value)] + Bodies(ms[1..])
  }

  /** A wire form in front of a stream is extracted as exactly its body. */
  lemma ExtractsWire(m: IrcMessage, rest: string)
    requires Serialize(m).Success?
    ensures |Serialize(m).value| >= 2
    ensures ExtractNext(Serialize(m).value + rest) == Complete(Body(Serialize(m).value), rest)
    ensures Body(Serialize(m).value) != ""
  {
    SerializedShape(m);
    var wire := Serialize(m).value;
    var head := Body(wire) + "\r";
    assert wire + rest == head + ("\n" + rest);
    FirstLFConcat(head, "\n" + rest);
    assert (wire + rest)[..|head|] == head;
    assert head[..|head| - 1] == Body(wire);
    assert (wire + rest)[|head| + 1..] == rest;
  }

  lemma DrainNothing(lines: seq<string>, quits: Quits)
    ensures Drain("", lines, quits) == Open("", lines)
  {
  }

  lemma {:induction false} DrainsStream(ms: seq<IrcMessage>, lines: seq<string>)
    requires AllSerializable(ms)
    ensures Drain(Stream(ms), lines, NeverQuits()) == Open("", lines + Bodies(ms))
    decreases |ms|
  {
    hide Serialize, ExtractNext, Body;
    if ms == [] {
      DrainNothing(lines, NeverQuits());
      assert lines + [] == lines;
    } else {
      var body := Bodies(ms)[0];
      ExtractsWire(ms[0], Stream(ms[1..]));
      DrainsStream(ms[1..], lines + [body]);
      assert lines + [body] + Bodies(ms[1..]) == lines + Bodies(ms);
    }
  }

  /**
   * Any sequence of serializable messages, printed one after another, cut
   * anywhere into reads, framed and parsed, gives back the same sequence with
   * the trailing flags as printed; nothing is left pending. A message comes
   * back changed exactly when it is not Reparsable.
   */
  lemma StreamRoundTrip(ms: seq<IrcMessage>, chunks: seq<string>)
    requires AllSerializable(ms)
    requires Flatten(chunks) == Stream(ms)
    requires forall c :: c in chunks ==> |c| <= RECEIVE_BUFFER_SIZE
    ensures var r := ReceiveAll(Open("", []), chunks, NeverQuits());
            && r.Open? && r.buffer == "" && |r.lines| == |ms|
            && forall i :: 0 <= i < |ms| ==>
                 (Parse(r.lines[i]) == Success(Printed(ms[i])) <==> Reparsable(ms[i]))
  {
    ReceivesStream(ms, chunks);
    forall i | 0 <= i < |ms|
      ensures Parse(Bodies(ms)[i]) == Success(Printed(ms[i])) <==> Reparsable(ms[i])
    {
      assert ms[i] in ms;
      BodyParses(ms[i], Bodies(ms)[i]);
    }
  }

  lemma BodyParses(m: IrcMessage, body: string)
    requires Serialize(m).Success? && Serialize(m).value == body + CRLF
    ensures Parse(body) == Success(Printed(m)) <==> Reparsable(m)
  {
    SerializedShape(m);
    assert Body(Serialize(m).value) == body;
    RoundTrip(m);
  }

  lemma ReceivesStream(ms: seq<IrcMessage>, chunks: seq<string>)
    requires AllSerializable(ms)
    requires Flatten(chunks) == Stream(ms)
    requires forall c :: c in chunks ==> |c| <= RECEIVE_BUFFER_SIZE
    ensures ReceiveAll(Open("", []), chunks, NeverQuits()) == Open("", Bodies(ms))
  {
    ReceiveAllIsDrain("", [], chunks, NeverQuits());
    assert "" + Flatten(chunks) == Stream(ms);
    DrainsStream(ms, []);
    assert [] + Bodies(ms) == Bodies(ms);
  }
}
