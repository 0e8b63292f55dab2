// src/Channel.cpp: the object of one channel. Members, operators and invited
// clients are kept by socket descriptor.
module ChannelObject {
  import opened Results
  import opened ChannelModes
  import opened ServerState
  import opened Membership
  import opened ChannelLog

  class Channel {
    const name: string
    var topic: string
    var members: set<int>
    var operators: set<int>
    var invitedClients: set<int>
    var inviteOnly: bool
    var topicRestricted: bool
    var keyEnabled: bool
    var limitEnabled: bool
    var channelKey: string
    var userLimit: nat
    var messageHistory: seq<string>
    ghost var history: seq<Entry>

    /** The stored lines are those of the history, which also knows who wrote them. */
    ghost predicate Valid()
      reads this
    {
      messageHistory == EntryLines(history)
    }

    ghost function Settings(): Flags
      reads this
    {
      Flags(inviteOnly, topicRestricted, keyEnabled, channelKey, limitEnabled, userLimit)
    }

    ghost function View(): Chan
      reads this
    {
      Chan(name, topic, members, operators, invitedClients, Settings(), history)
    }

    constructor (channelName: string)
      ensures Valid() && View() == NewChan(channelName)
    {
      name := channelName;
      topic := "";
      members, operators, invitedClients := {}, {}, {};
      inviteOnly, topicRestricted, keyEnabled, limitEnabled := false, false, false, false;
      channelKey, userLimit := "", 0;
      messageHistory, history := [], [];
    }

    method SetTopic(newTopic: string)
      requires Valid()
      modifies this
      ensures Valid() && View() == old(View()).(topic := newTopic)
    {
      topic := newTopic;
    }

    method AddMember(client: int)
      requires Valid()
      modifies this
      ensures Valid() && View() == old(View()).(members := old(members) + {client})
    {
      members := members + {client};
    }

    /** Out of every collection that requires membership. */
    method RemoveMember(client: int)
      requires Valid()
      modifies this
      ensures Valid() && View() == Without(old(View()), client)
    {
      operators := operators - {client};
      invitedClients := invitedClients - {client};
      members := members - {client};
    }

    /** Only a member can become an operator. */
    method AddOperator(client: int)
      requires Valid()
      modifies this
      ensures Valid()
      ensures View() == old(View()).(operators := old(operators) + if client in old(members) then {client} else {})
    {
      if client !in members {
        return;
      }
      operators := operators + {client};
    }

    method RemoveOperator(client: int)
      requires Valid()
      modifies this
      ensures Valid() && View() == old(View()).(operators := old(operators) - {client})
    {
      operators := operators - {client};
    }

    /** A member is not invited. */
    method InviteClient(client: int)
      requires Valid()
      modifies this
      ensures Valid()
      ensures View() == old(View()).(invited := old(invitedClients) + if client in old(members) then {} else {client})
    {
      if client in members {
        return;
      }
      invitedClients := invitedClients + {client};
    }

    method RemoveInvitation(client: int)
      requires Valid()
      modifies this
      ensures Valid() && View() == old(View()).(invited := old(invitedClients) - {client})
    {
      invitedClients := invitedClients - {client};
    }

    method SetInviteOnly(enabled: bool)
      requires Valid()
      modifies this
      ensures Valid() && View() == old(View()).(flags := old(Settings()).(inviteOnly := enabled))
    {
      inviteOnly := enabled;
    }

    method SetTopicRestricted(enabled: bool)
      requires Valid()
      modifies this
      ensures Valid() && View() == old(View()).(flags := old(Settings()).(topicRestricted := enabled))
    {
      topicRestricted := enabled;
    }

    method RemoveKey()
      requires Valid()
      modifies this
      ensures Valid() && View() == old(View()).(flags := old(Settings()).(key := "", keyEnabled := false))
    {
      channelKey, keyEnabled := "", false;
    }

    method RemoveUserLimit()
      requires Valid()
      modifies this
      ensures Valid() && View() == old(View()).(flags := old(Settings()).(limit := 0, limitEnabled := false))
    {
      userLimit, limitEnabled := 0, false;
    }

    method SetKey(newKey: string)
      requires Valid()
      modifies this
      ensures Valid()
      ensures View() == if newKey == "" then old(View())
                        else old(View()).(flags := old(Settings()).(key := newKey, keyEnabled := true))
    {
      if newKey == "" {
        return;
      }
      channelKey, keyEnabled := newKey, true;
    }

    method SetUserLimit(newLimit: nat)
      requires Valid()
      modifies this
      ensures Valid()
      ensures View() == if newLimit == 0 then old(View())
                        else old(View()).(flags := old(Settings()).(limit := newLimit, limitEnabled := true))
    {
      if newLimit == 0 {
        return;
      }
      userLimit, limitEnabled := newLimit, true;
    }

    method AddHistoryMessage(author: int, serializedMessage: string)
      requires Valid()
      modifies this
      ensures Valid()
      ensures View() == if serializedMessage == "" then old(View())
                        else Stored(old(View()), author, serializedMessage)
    {
      if serializedMessage == "" {
        return;
      }
      messageHistory := messageHistory + [serializedMessage];
      history := history + [Entry(author, serializedMessage)];
    }
  }
}
