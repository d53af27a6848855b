/**
 * `PlayerBag`: the session registry. On each snapshot it selects the
 * players this client controls, creates an engine for each new one, and
 * — unless halted — lets every selected engine consume the snapshot and act.
 */
module Bags {
  import opened Optional
  import opened Grid
  import opened Draws
  import opened Text
  import opened Snapshot
  import opened PlayerActions

  /** The client configuration: the id string of the controlled player, if set. */
  datatype Config = Config(playerId: Option<string>)

  /**
   * The registry: one engine per id ever selected, the ids selected by the
   * last snapshot, the configuration, the halt switch, and the snapshots
   * logged so far.
   */
  datatype Bag = Bag(
    players: map<string, PlayerAction>,
    activeIds: seq<string>,
    config: Option<Config>,
    halt: bool,
    log: seq<Ticktack>)

  /** A command an engine sent, tagged with the engine's id. */
  datatype Sent = Sent(id: string, command: Command)

  function EmptyBag(): Bag
  {
    Bag(map[], [], None, false, [])
  }

  /** The marker that tells a child player's id apart. */
  const ChildMarker: string := "_child"

  /** A snapshot id is controlled when, stripped of its first marker, it occurs in the configured id. */
  predicate Selected(config: Option<Config>, id: string)
  {
    config.Some? && config.value.playerId.Some? && Includes(config.value.playerId.value, StripFirst(id, ChildMarker))
  }

  /** The controlled ids of a snapshot's player list, in list order. */
  function ActiveIds(config: Option<Config>, players: seq<PlayerInfo>): (r: seq<string>)
    ensures |r| <= |players|
    ensures forall x :: x in r <==> Selected(config, x) && exists j :: 0 <= j < |players| && players[j].id == x
    decreases |players|
  {
    if |players| == 0 then []
    else
      var init := players[..|players| - 1];
      var last := players[|players| - 1];
      assert forall j :: 0 <= j < |init| ==> init[j] == players[j];
      ActiveIds(config, init) + if Selected(config, last.id) then [last.id] else []
  }

  /** Without a configured id nothing is selected. */
  lemma {:induction false} NoConfigNoActive(config: Option<Config>, players: seq<PlayerInfo>)
    requires config.None? || config.value.playerId.None?
    ensures ActiveIds(config, players) == []
    decreases |players|
  {
    if |players| > 0 {
      NoConfigNoActive(config, players[..|players| - 1]);
    }
  }

  /** Every engine is marked a child exactly when its id carries the marker. */
  predicate ChildMarked(players: map<string, PlayerAction>)
  {
    forall x :: x in players ==> players[x].isChild == Includes(x, ChildMarker)
  }

  /** Every engine is stored under its own player's id. */
  predicate Keyed(players: map<string, PlayerAction>)
  {
    forall x :: x in players ==> players[x].info.id == x
  }

  /** The commands of one engine, tagged with its id. */
  function Tagged(id: string, cmds: seq<Command>): (r: seq<Sent>)
    ensures |r| == |cmds| && forall i :: 0 <= i < |cmds| ==> r[i] == Sent(id, cmds[i])
  {
    seq(|cmds|, i requires 0 <= i < |cmds| => Sent(id, cmds[i]))
  }

  /** `a'` differs from `a` at most in its player info. */
  predicate InfoOnly(a: PlayerAction, a': PlayerAction)
  {
    a'.(info := a.info) == a
  }

  /** The engines grown from `orig` while selecting `ids`: only selected ids are added or touched, and those only in their info. */
  predicate Framed(orig: map<string, PlayerAction>, players: map<string, PlayerAction>, ids: seq<string>)
  {
    && players.Keys == orig.Keys + (set x | x in ids)
    && (forall x :: x in orig && x !in ids ==> players[x] == orig[x])
    && (forall x :: x in orig && x in ids ==> InfoOnly(orig[x], players[x]))
  }

  /** Every selected engine holds player info from the list, and markings survive. */
  predicate Labelled(orig: map<string, PlayerAction>, players: map<string, PlayerAction>, ids: seq<string>, list: seq<PlayerInfo>)
  {
    && (forall x :: x in ids ==> x in players && players[x].info in list)
    && (ChildMarked(orig) ==> ChildMarked(players))
    && (Keyed(orig) ==> Keyed(players))
  }

  /** The facts the first loop of `run` keeps about the engines `players` grown from `orig`. */
  predicate Registered(orig: map<string, PlayerAction>, players: map<string, PlayerAction>, ids: seq<string>, list: seq<PlayerInfo>)
  {
    Framed(orig, players, ids) && Labelled(orig, players, ids, list)
  }

  /** What enrolling the snapshot player `p` does to the engines. */
  predicate EnrollStep(players: map<string, PlayerAction>, players': map<string, PlayerAction>, p: PlayerInfo, selected: bool)
  {
    && (!selected ==> players' == players)
    && (selected ==> players'.Keys == players.Keys + {p.id} && players'[p.id].info == p)
    && (selected && p.id in players ==> InfoOnly(players[p.id], players'[p.id]))
    && (selected && p.id !in players ==> players'[p.id].isChild == Includes(p.id, ChildMarker))
    && (forall x :: x in players && x != p.id ==> x in players' && players'[x] == players[x])
  }

  /** One turn of the first loop of `run`, for the snapshot player `p`. */
  method Enroll(config: Option<Config>, players: map<string, PlayerAction>, p: PlayerInfo, payload: Ticktack, now: int, dirs: nat -> DirDraw)
    returns (players': map<string, PlayerAction>)
    ensures EnrollStep(players, players', p, Selected(config, p.id))
  {
    players' := players;
    if Selected(config, p.id) {
      if p.id !in players {
        var e := NewPlayerAction(p, payload, Includes(p.id, ChildMarker), now, dirs);
        players' := players[p.id := e];
      } else {
        players' := players[p.id := players[p.id].(info := p)];
      }
    }
  }

  lemma FramedStep(orig: map<string, PlayerAction>, players: map<string, PlayerAction>, players': map<string, PlayerAction>,
                   ids: seq<string>, p: PlayerInfo, selected: bool)
    requires Framed(orig, players, ids) && EnrollStep(players, players', p, selected)
    ensures Framed(orig, players', if selected then ids + [p.id] else ids)
  {
    var ids' := if selected then ids + [p.id] else ids;
    forall x | x in orig && x !in ids'
      ensures players'[x] == orig[x]
    {
      assert players'[x] == players[x];
    }
    forall x | x in orig && x in ids'
      ensures InfoOnly(orig[x], players'[x])
    {
      if x == p.id && selected {
        if x !in ids {
          assert players[x] == orig[x];
        }
      } else {
        assert players'[x] == players[x];
      }
    }
  }

  lemma LabelledStep(orig: map<string, PlayerAction>, players: map<string, PlayerAction>, players': map<string, PlayerAction>,
                     ids: seq<string>, list: seq<PlayerInfo>, p: PlayerInfo, selected: bool)
    requires Labelled(orig, players, ids, list) && EnrollStep(players, players', p, selected)
    ensures Labelled(orig, players', if selected then ids + [p.id] else ids, list + [p])
  {
    forall x | x in (if selected then ids + [p.id] else ids)
      ensures x in players' && players'[x].info in list + [p]
    {
      if !(x == p.id && selected) {
        assert players'[x] == players[x];
      }
    }
    if ChildMarked(orig) {
      forall x | x in players'
        ensures players'[x].isChild == Includes(x, ChildMarker)
      {
        if x == p.id && selected && x in players {
          assert InfoOnly(players[x], players'[x]);
        }
      }
    }
    if Keyed(orig) {
      forall x | x in players'
        ensures players'[x].info.id == x
      {
        if x == p.id && selected && x in players {
          assert InfoOnly(players[x], players'[x]);
        }
      }
    }
  }

  /**
   * `run`, first loop: select the controlled ids and create the missing
   * engines; an engine that exists only gets the snapshot's player info.
   */
  method Register(b: Bag, payload: Ticktack, now: int, draws: nat -> Entropy)
    returns (players: map<string, PlayerAction>, ids: seq<string>)
    ensures ids == ActiveIds(b.config, payload.players)
    ensures Registered(b.players, players, ids, payload.players)
    ensures forall x :: x in b.players ==> InfoOnly(b.players[x], players[x])
    ensures b.config.None? || b.config.value.playerId.None? ==> ids == []
  {
    players, ids := b.players, [];
    var j := 0;
    while j < |payload.players|
      invariant 0 <= j <= |payload.players|
      invariant ids == ActiveIds(b.config, payload.players[..j])
      invariant Registered(b.players, players, ids, payload.players[..j])
    {
      var p := payload.players[j];
      assert payload.players[..j + 1] == payload.players[..j] + [p];
      var selected := Selected(b.config, p.id);
      var players' := Enroll(b.config, players, p, payload, now, draws(j).dirs);
      FramedStep(b.players, players, players', ids, p, selected);
      LabelledStep(b.players, players, players', ids, payload.players[..j], p, selected);
      players, ids := players', if selected then ids + [p.id] else ids;
      j := j + 1;
    }
    assert payload.players[..j] == payload.players;
    if b.config.None? || b.config.value.playerId.None? {
      NoConfigNoActive(b.config, payload.players);
    }
    forall x | x in b.players && x !in ids
      ensures InfoOnly(b.players[x], players[x])
    {
      assert players[x] == b.players[x];
    }
  }

  /**
   * One engine's turn in `run`: take the run's team, consume the snapshot,
   * and act. The engine keeps its player info and child flag.
   */
  method Act(e: PlayerAction, ids: seq<string>, payload: Ticktack, now: int, ent: Entropy)
    returns (e': PlayerAction, cmds: seq<Command>)
    ensures e'.info == e.info && e'.isChild == e.isChild && e'.teamIds == ids
    ensures e'.ticktack == payload
    ensures (|cmds| > 0 && cmds[0] == Marry) <==> !e.isChild && e.timeToMarry + 30000 < now
    ensures e'.timeToMarry == if !e.isChild && e.timeToMarry + 30000 < now then now else e.timeToMarry
    ensures |cmds| <= 2 && forall i :: 1 <= i < |cmds| ==> cmds[i] != Marry
  {
    var e0 := ConsumeTicktack(e.(teamIds := ids), payload, now, ent.dirs);
    AdvanceFrame(e.(teamIds := ids), payload, now);
    var more, chosen, path;
    e', cmds, more, chosen, path := NextAction(e0, now, ent);
    assert forall i :: 1 <= i < |cmds| ==> cmds[i] in more;
  }

  /**
   * `run`, second loop: every engine of `ids`, in order, takes the team
   * `ids`, consumes the snapshot and acts; the `k`-th uses the `k`-th draws.
   */
  method ActAll(players: map<string, PlayerAction>, ids: seq<string>, payload: Ticktack, now: int, draws: nat -> Entropy)
    returns (players': map<string, PlayerAction>, sent: seq<Sent>)
    requires forall x :: x in ids ==> x in players
    ensures players'.Keys == players.Keys
    ensures forall x :: x in players && x !in ids ==> players'[x] == players[x]
    ensures forall x :: x in players ==> players'[x].info == players[x].info && players'[x].isChild == players[x].isChild
    ensures forall x :: x in ids ==> players'[x].teamIds == ids
    ensures forall s :: s in sent ==> s.id in ids
    ensures ids == [] ==> sent == []
    ensures ChildMarked(players) ==> ChildMarked(players')
    ensures Keyed(players) ==> Keyed(players')
  {
    players', sent := players, [];
    var k := 0;
    while k < |ids|
      invariant 0 <= k <= |ids|
      invariant players'.Keys == players.Keys
      invariant forall x :: x in players && x !in ids ==> players'[x] == players[x]
      invariant forall x :: x in players ==>
        players'[x].info == players[x].info && players'[x].isChild == players[x].isChild
      invariant forall i :: 0 <= i < k ==> players'[ids[i]].teamIds == ids
      invariant forall s :: s in sent ==> s.id in ids
      invariant ids == [] ==> sent == []
    {
      var id := ids[k];
      var e, cmds := Act(players'[id], ids, payload, now, draws(k));
      ghost var before := players';
      players' := players'[id := e];
      forall i | 0 <= i <= k
        ensures players'[ids[i]].teamIds == ids
      {
        if ids[i] != id {
          assert players'[ids[i]] == before[ids[i]];
        }
      }
      sent := sent + Tagged(id, cmds);
      k := k + 1;
    }
    assert forall x :: x in ids ==> exists i :: 0 <= i < |ids| && ids[i] == x;
  }

  /** The second half of `run`: a halted bag sends nothing and leaves the engines as registered. */
  method Dispatch(players: map<string, PlayerAction>, ids: seq<string>, halt: bool, payload: Ticktack, now: int,
                  draws: nat -> Entropy)
    returns (players': map<string, PlayerAction>, sent: seq<Sent>)
    requires forall x :: x in ids ==> x in players
    ensures players'.Keys == players.Keys
    ensures forall x :: x in players && x !in ids ==> players'[x] == players[x]
    ensures halt ==> players' == players && sent == []
    ensures !halt ==> forall x :: x in ids ==> players'[x].teamIds == ids
    ensures forall x :: x in players ==> players'[x].info == players[x].info && players'[x].isChild == players[x].isChild
    ensures forall s :: s in sent ==> s.id in ids
    ensures ids == [] ==> sent == []
    ensures ChildMarked(players) ==> ChildMarked(players')
    ensures Keyed(players) ==> Keyed(players')
  {
    players', sent := players, [];
    if !halt {
      players', sent := ActAll(players, ids, payload, now, draws);
    }
  }

  /**
   * `run`: log the snapshot, register the controlled players, and — unless
   * halted — hand every active engine this run's team, the snapshot and a
   * turn to act.
   */
  method Run(b: Bag, payload: Ticktack, now: int, draws: nat -> Entropy) returns (b': Bag, sent: seq<Sent>)
    ensures b'.activeIds == ActiveIds(b.config, payload.players)
    ensures b'.log == b.log + [payload] && b'.config == b.config && b'.halt == b.halt
    ensures b'.players.Keys == b.players.Keys + (set x | x in b'.activeIds)
    ensures forall x :: x in b.players && x !in b'.activeIds ==> b'.players[x] == b.players[x]
    ensures b.halt ==> sent == []
    ensures b.config.None? || b.config.value.playerId.None? ==> b'.activeIds == [] && sent == []
    ensures b.halt ==> forall x :: x in b.players ==> InfoOnly(b.players[x], b'.players[x])
    ensures !b.halt ==> forall x :: x in b'.activeIds ==> b'.players[x].teamIds == b'.activeIds
    ensures forall x :: x in b'.activeIds ==> b'.players[x].info in payload.players
    ensures forall s :: s in sent ==> s.id in b'.activeIds
    ensures ChildMarked(b.players) ==> ChildMarked(b'.players)
    ensures Keyed(b.players) ==> Keyed(b'.players)
  {
    var registered, ids := Register(b, payload, now, draws);
    var players;
    players, sent := Dispatch(registered, ids, b.halt, payload, now, draws);
    b' := Bag(players, ids, b.config, b.halt, b.log + [payload]);
  }

  /** `consumeConfig`: the new configuration replaces the old one. */
  function ConsumeConfig(b: Bag, config: Config): (r: Bag)
    ensures r.config == Some(config) && r.(config := b.config) == b
  {
    b.(config := Some(config))
  }

  /** `toggleStop`: flips the halt switch and nothing else. */
  function ToggleStop(b: Bag): (r: Bag)
    ensures r.halt != b.halt && r.(halt := b.halt) == b
  {
    b.(halt := !b.halt)
  }

  /** Two toggles restore the original registry. */
  lemma ToggleTwice(b: Bag)
    ensures ToggleStop(ToggleStop(b)) == b
  {
  }
}
