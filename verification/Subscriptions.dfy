/** The subscription manager: two nested maps, updated in place, that must stay inverse. */
module Subscriptions {
  import opened Protocol

  /** The inner maps, which are shared by reference. */
  class PlayerSet {
    var members: set<PlayerId>

    constructor ()
      ensures members == {}
    {
      members := {};
    }
  }

  class TopicSet {
    var members: set<Topic>

    constructor ()
      ensures members == {}
    {
      members := {};
    }
  }

  datatype SubOp =
    | Join(player: PlayerId, topic: Topic)
    | Leave(player: PlayerId, topic: Topic)
    | LeaveAll(player: PlayerId)

  type Pairs = set<(PlayerId, Topic)>

  /** What the operations mean for a plain set of pairs. */
  function Applied(pairs: Pairs, op: SubOp): Pairs {
    match op
    case Join(p, t) => pairs + {(p, t)}
    case Leave(p, t) => pairs - {(p, t)}
    case LeaveAll(p) => set q | q in pairs && q.0 != p
  }

  function AllApplied(pairs: Pairs, ops: seq<SubOp>): Pairs {
    if ops == [] then pairs else Applied(AllApplied(pairs, ops[..|ops| - 1]), ops[|ops| - 1])
  }

  /** One player's subscriptions to some topics. */
  ghost function Row(player: PlayerId, topics: set<Topic>): Pairs {
    set t | t in topics :: (player, t)
  }

  class Manager {
    var subscribers: map<Topic, PlayerSet>
    var perPlayer: map<PlayerId, TopicSet>

    ghost var topicRepr: set<PlayerSet>    // the inner maps of each side
    ghost var playerRepr: set<TopicSet>

    ghost function TopicRepr(): set<PlayerSet>
      reads this`subscribers
    {
      set t | t in subscribers :: subscribers[t]
    }

    ghost function PlayerRepr(): set<TopicSet>
      reads this`perPlayer
    {
      set p | p in perPlayer :: perPlayer[p]
    }

    /** The subscriptions, read off the topics' side. */
    ghost function View(): Pairs
      reads this`subscribers, TopicRepr()
    {
      set t, p | t in subscribers && p in subscribers[t].members :: (p, t)
    }

    /** The subscriptions, read off the players' side. */
    ghost function Mirror(): Pairs
      reads this`perPlayer, PlayerRepr()
    {
      set p, t | p in perPlayer && t in perPlayer[p].members :: (p, t)
    }

    /** No inner map of the topics' side is shared and none is empty. */
    ghost predicate TopicsTidy()
      reads this`subscribers, TopicRepr()
    {
      && (forall t, u :: t in subscribers && u in subscribers && t != u ==> subscribers[t] != subscribers[u])
      && (forall t :: t in subscribers ==> subscribers[t].members != {})
    }

    ghost predicate PlayersTidy()
      reads this`perPlayer, PlayerRepr()
    {
      && (forall p, q :: p in perPlayer && q in perPlayer && p != q ==> perPlayer[p] != perPlayer[q])
      && (forall p :: p in perPlayer ==> perPlayer[p].members != {})
    }

    ghost predicate Valid()
      reads this, topicRepr, playerRepr
    {
      && topicRepr == TopicRepr() && playerRepr == PlayerRepr()
      && TopicsTidy() && PlayersTidy() && View() == Mirror()
    }

    ghost predicate Holds(pairs: Pairs)
      reads this, topicRepr, playerRepr
    {
      Valid() && View() == pairs
    }

    constructor ()
      ensures Valid() && View() == {} && topicRepr == {} && playerRepr == {}
    {
      subscribers, perPlayer := map[], map[];
      topicRepr, playerRepr := {}, {};
    }

    ghost function PlayersOf(topic: Topic): set<PlayerId>
      reads this`subscribers, TopicRepr()
    {
      if topic in subscribers then subscribers[topic].members else {}
    }

    ghost function TopicsOf(player: PlayerId): set<Topic>
      reads this`perPlayer, PlayerRepr()
    {
      if player in perPlayer then perPlayer[player].members else {}
    }

    // ---------------------------------------------------------------- one side at a time

    method AddToTopic(player: PlayerId, topic: Topic)
      requires TopicsTidy()
      modifies this`subscribers, TopicRepr()
      ensures TopicsTidy() && View() == old(View()) + {(player, topic)}
      ensures fresh(TopicRepr() - old(TopicRepr()))
    {
      if topic !in subscribers {
        var made := new PlayerSet();
        subscribers := subscribers[topic := made];
      }
      var subs := subscribers[topic];
      subs.members := subs.members + {player};
      assert player in subscribers[topic].members;
    }

    method AddToPlayer(player: PlayerId, topic: Topic)
      requires PlayersTidy()
      modifies this`perPlayer, PlayerRepr()
      ensures PlayersTidy() && Mirror() == old(Mirror()) + {(player, topic)}
      ensures fresh(PlayerRepr() - old(PlayerRepr()))
    {
      if player !in perPlayer {
        var made := new TopicSet();
        perPlayer := perPlayer[player := made];
      }
      var topics := perPlayer[player];
      topics.members := topics.members + {topic};
      assert topic in perPlayer[player].members;
    }

    method DropFromTopic(player: PlayerId, topic: Topic)
      requires TopicsTidy()
      modifies this`subscribers, TopicRepr()
      ensures TopicsTidy() && View() == old(View()) - {(player, topic)}
      ensures TopicRepr() <= old(TopicRepr())
    {
      if topic in subscribers {
        var subs := subscribers[topic];
        subs.members := subs.members - {player};
        if subs.members == {} {
          subscribers := subscribers - {topic};
        }
      }
      assert forall t :: t in old(subscribers) && t != topic ==>
               t in subscribers && subscribers[t].members == old(subscribers[t].members);
      assert forall p :: p in PlayersOf(topic) <==> p in old(PlayersOf(topic)) && p != player;
    }

    method DropFromPlayer(player: PlayerId, topic: Topic)
      requires PlayersTidy()
      modifies this`perPlayer, PlayerRepr()
      ensures PlayersTidy() && Mirror() == old(Mirror()) - {(player, topic)}
      ensures PlayerRepr() <= old(PlayerRepr())
    {
      if player in perPlayer {
        var topics := perPlayer[player];
        topics.members := topics.members - {topic};
        if topics.members == {} {
          perPlayer := perPlayer - {player};
        }
      }
      assert forall p :: p in old(perPlayer) && p != player ==>
               p in perPlayer && perPlayer[p].members == old(perPlayer[p].members);
      assert forall t :: t in TopicsOf(player) <==> t in old(TopicsOf(player)) && t != topic;
    }

    // ---------------------------------------------------------------- the operations

    method Subscribe(player: PlayerId, topic: Topic)
      requires Valid()
      modifies this, topicRepr, playerRepr
      ensures Valid() && View() == Applied(old(View()), Join(player, topic))
      ensures fresh(topicRepr - old(topicRepr)) && fresh(playerRepr - old(playerRepr))
    {
      hide View, Mirror, TopicsTidy, PlayersTidy;
      AddToTopic(player, topic);
      AddToPlayer(player, topic);
      topicRepr, playerRepr := TopicRepr(), PlayerRepr();
    }

    method Unsubscribe(player: PlayerId, topic: Topic)
      requires Valid()
      modifies this, topicRepr, playerRepr
      ensures Valid() && View() == Applied(old(View()), Leave(player, topic))
      ensures topicRepr <= old(topicRepr) && playerRepr <= old(playerRepr)
    {
      hide View, Mirror, TopicsTidy, PlayersTidy, TopicRepr, PlayerRepr;
      DropFromTopic(player, topic);
      DropFromPlayer(player, topic);
      topicRepr, playerRepr := TopicRepr(), PlayerRepr();
    }

    /** The loop visits the player's topics in any order. */
    method LeaveTopics(player: PlayerId, topics: set<Topic>)
      requires TopicsTidy()
      modifies this`subscribers, TopicRepr()
      ensures TopicsTidy() && TopicRepr() <= old(TopicRepr())
      ensures View() == old(View()) - Row(player, topics)
    {
      hide View, TopicsTidy;
      var todo := topics;
      while todo != {}
        invariant TopicsTidy() && TopicRepr() <= old(TopicRepr())
        invariant todo <= topics && View() == old(View()) - Row(player, topics - todo)
        decreases todo
      {
        var topic :| topic in todo;
        DropFromTopic(player, topic);
        todo := todo - {topic};
        assert Row(player, topics - todo) == Row(player, topics - todo - {topic}) + {(player, topic)};
      }
    }

    method UnsubscribeAll(player: PlayerId)
      requires Valid()
      modifies this, topicRepr, playerRepr
      ensures Valid() && View() == Applied(old(View()), LeaveAll(player))
      ensures topicRepr <= old(topicRepr) && playerRepr <= old(playerRepr)
    {
      hide View, Mirror, TopicsTidy, PlayersTidy, Row, Applied, TopicRepr, PlayerRepr;
      RowOf(player);
      if player in perPlayer {
        LeaveTopics(player, perPlayer[player].members);
        DropPlayer(player);
        topicRepr, playerRepr := TopicRepr(), PlayerRepr();
      }
    }

    /** A player's entry holds exactly that player's subscriptions. */
    lemma RowOf(player: PlayerId)
      requires Valid()
      ensures Applied(View(), LeaveAll(player))
              == if player in perPlayer then View() - Row(player, perPlayer[player].members) else View()
    {
      assert forall q :: q in View() ==> q in Mirror();
      assert forall q :: q in View() && q.0 == player ==> player in perPlayer && q.1 in perPlayer[player].members;
    }

    method DropPlayer(player: PlayerId)
      requires PlayersTidy()
      modifies this`perPlayer
      ensures PlayersTidy() && Mirror() == Applied(old(Mirror()), LeaveAll(player))
      ensures PlayerRepr() <= old(PlayerRepr())
    {
      perPlayer := perPlayer - {player};
    }

    method Apply(op: SubOp)
      requires Valid()
      modifies this, topicRepr, playerRepr
      ensures Valid() && View() == Applied(old(View()), op)
      ensures fresh(topicRepr - old(topicRepr)) && fresh(playerRepr - old(playerRepr))
    {
      match op
      case Join(p, t) => Subscribe(p, t);
      case Leave(p, t) => Unsubscribe(p, t);
      case LeaveAll(p) => UnsubscribeAll(p);
    }

    /** Over every operation sequence the manager is the plain set of pairs. */
    method RunAll(ops: seq<SubOp>)
      requires Valid()
      modifies this, topicRepr, playerRepr
      ensures Valid() && View() == AllApplied(old(View()), ops)
    {
      for i := 0 to |ops|
        invariant Valid() && View() == AllApplied(old(View()), ops[..i])
        invariant fresh(topicRepr - old(topicRepr)) && fresh(playerRepr - old(playerRepr))
      {
        assert ops[..i + 1][..i] == ops[..i];
        Apply(ops[i]);
      }
      assert ops[..|ops|] == ops;
    }

    /** The players that a publication on the topic goes to. */
    method PlayersNow(topic: Topic) returns (players: set<PlayerId>)
      requires Valid()
      ensures players == set q | q in View() && q.1 == topic :: q.0
    {
      players := if topic in subscribers then subscribers[topic].members else {};
      assert forall p :: p in players ==> (p, topic) in View();
    }

    /** The subscribers of a topic, each once, in some order. */
    method Subscribers(topic: Topic) returns (out: seq<PlayerId>)
      requires Valid()
      ensures forall p :: p in out <==> (p, topic) in View()
      ensures forall i, j :: 0 <= i < j < |out| ==> out[i] != out[j]
    {
      out := [];
      if topic !in subscribers {
        return;
      }
      var todo := subscribers[topic].members;
      while todo != {}
        invariant todo <= subscribers[topic].members
        invariant forall p :: p in out <==> p in subscribers[topic].members - todo
        invariant forall i, j :: 0 <= i < j < |out| ==> out[i] != out[j]
        decreases todo
      {
        var p :| p in todo;
        assert p !in out;
        out, todo := out + [p], todo - {p};
      }
    }

    /** The topics of a player, each once, in some order. */
    method Topics(player: PlayerId) returns (out: seq<Topic>)
      requires Valid()
      ensures forall t :: t in out <==> (player, t) in View()
      ensures forall i, j :: 0 <= i < j < |out| ==> out[i] != out[j]
    {
      out := [];
      if player !in perPlayer {
        return;
      }
      var todo := perPlayer[player].members;
      while todo != {}
        invariant todo <= perPlayer[player].members
        invariant forall t :: t in out <==> t in perPlayer[player].members - todo
        invariant forall i, j :: 0 <= i < j < |out| ==> out[i] != out[j]
        decreases todo
      {
        var t :| t in todo;
        assert t !in out;
        out, todo := out + [t], todo - {t};
      }
    }

    ghost function ByTopic(): map<Topic, set<PlayerId>>
      reads this`subscribers, TopicRepr()
    {
      map t | t in subscribers :: subscribers[t].members
    }

    ghost function ByPlayer(): map<PlayerId, set<Topic>>
      reads this`perPlayer, PlayerRepr()
    {
      map p | p in perPlayer :: perPlayer[p].members
    }

    /** Both sides hold as many entries as there are subscriptions. */
    lemma SizesAgree()
      requires Valid()
      ensures TotalSize(ByTopic()) == |View()| == TotalSize(ByPlayer())
    {
      SizeIsPairs(ByTopic());
      SizeIsPairs(ByPlayer());
      assert Flat(ByPlayer()) == Mirror();
      var there := Flat(ByTopic());
      forall t, p ensures (t, p) in there <==> (p, t) in View() {}
      SwapSize(there, View());
    }
  }

  // ---------------------------------------------------------------- counting a nested map

  ghost function TotalSize<K(!new), V(!new)>(m: map<K, set<V>>): nat {
    if m == map[] then 0
    else
      var k :| k in m;
      |m[k]| + TotalSize(m - {k})
  }

  ghost function Flat<K(!new), V(!new)>(m: map<K, set<V>>): set<(K, V)> {
    set k, v | k in m && v in m[k] :: (k, v)
  }

  lemma {:induction false} SizeIsPairs<K(!new), V(!new)>(m: map<K, set<V>>)
    ensures TotalSize(m) == |Flat(m)|
  {
    if m != map[] {
      var k :| k in m && TotalSize(m) == |m[k]| + TotalSize(m - {k});
      SizeIsPairs(m - {k});
      var row := set v | v in m[k] :: (k, v);
      RowSize(k, m[k]);
      assert Flat(m) == row + Flat(m - {k}) && row !! Flat(m - {k});
    }
  }

  lemma {:induction false} RowSize<K(!new), V(!new)>(k: K, vs: set<V>)
    ensures |set v | v in vs :: (k, v)| == |vs|
  {
    if vs != {} {
      var v :| v in vs;
      RowSize(k, vs - {v});
      assert (set w | w in vs :: (k, w)) == (set w | w in vs - {v} :: (k, w)) + {(k, v)};
    }
  }

  lemma {:induction false} SwapSize<A(!new), B(!new)>(there: set<(A, B)>, back: set<(B, A)>)
    requires forall a, b :: (a, b) in there <==> (b, a) in back
    ensures |there| == |back|
  {
    if there == {} {
      assert forall q :: q in back ==> (q.1, q.0) in there;
    } else {
      var q :| q in there;
      assert (q.1, q.0) in back;
      SwapSize(there - {q}, back - {(q.1, q.0)});
    }
  }
}
