// The line that announces a MODE command, read back by whoever receives it.
module ModeBroadcast {
  import opened Results
  import opened IrcCasemap
  import opened Codec
  import opened CodecLaws
  import opened ChannelModes
  import opened ModeLaws
  import opened ServerState
  import opened Commands
  import opened DispatchLaws

  /** The operations an announcement stands for, read as the server reads a MODE command. */
  function Reread(st: State, key: string, params: seq<string>): Option<seq<ModeOp>>
    requires key in st.channels
  {
    if |params| < 2 then None else ValidModes(st, key, params)
  }

  lemma UpperMode()
    ensures Upper("MODE") == "MODE"
  {
  }

  /** The announcement parses back to the message that was printed. */
  lemma AnnouncementParses(st: State, id: int, name: string, ops: seq<ModeOp>)
    requires id in st.users && Serialize(ModeMessage(st, id, name, ops)).Success?
    ensures |Serialize(ModeMessage(st, id, name, ops)).value| >= 2
    ensures var read := Parse(Body(Serialize(ModeMessage(st, id, name, ops)).value));
            && read.Success? && read.value.command == "MODE"
            && read.value.params == [name, Letters(ops, '\0')] + Arguments(ops)
  {
    var m := ModeMessage(st, id, name, ops);
    hide Serialize, Parse, Letters, Arguments, Upper;
    SerializedShape(m);
    UpperMode();
    assert PrefixOf(st.users[id].account) != "" by { PrefixHasMark(st.users[id].account); }
    RoundTrip(m);
  }

  lemma PrefixHasMark(a: Account)
    ensures '!' in PrefixOf(a)
  {
  }

  /**
   * The line that announces a MODE command, parsed as a command against the
   * same channel, validates to the very operations that were applied, and
   * applying them again changes nothing.
   */
  lemma AnnouncementReplays(st: State, id: int, key: string, params: seq<string>)
    requires Inv(st) && id in st.users && key in st.channels && |params| >= 2
    requires ValidModes(st, key, params).Some?
    requires Serialize(ModeMessage(st, id, st.channels[key].name, ValidModes(st, key, params).value)).Success?
    ensures var ops := ValidModes(st, key, params).value;
            var wire := Serialize(ModeMessage(st, id, st.channels[key].name, ops)).value;
            && |wire| >= 2
            && Parse(Body(wire)).Success?
            && Reread(st, key, Parse(Body(wire)).value.params) == Some(ops)
            && (var once := Apply(ModedOf(st.channels[key]), st.channels[key].members, LookupIn(st), ops);
                Apply(once, st.channels[key].members, LookupIn(st), ops) == once)
  {
    var ch := st.channels[key];
    var ops := ValidModes(st, key, params).value;
    MembersIndexed(st, key);
    hide Inv, Serialize, Parse, ParseModes, Validate, Letters, Arguments, Apply, LookupIn, NicksIn, IndexInverse;
    AnnouncementParses(st, id, ch.name, ops);
    BroadcastReplays(params[1], params[2..], ModedOf(ch), ch.members, LookupIn(st), NicksIn(st));
    var read := Parse(Body(Serialize(ModeMessage(st, id, ch.name, ops)).value)).value.params;
    assert read[1] == Letters(ops, '\0');
    assert read[2..] == Arguments(ops);
  }
}
