/** The guest list: invitations as aggregates, and the saga that answers acceptances. */
module GuestList {
  import opened Base
  import opened EventStore
  import opened Aggregates
  import C = Commands

  const INVITATION_TYPE := "Invitation"

  datatype EventType = InviteCreated | InviteAccepted | InviteDeclined | InviteConfirmed | InviteDenied | OtherType

  datatype Data = NoData | InviteCreatedData(name: string, age: int)

  type InviteKind = Kind<EventType, Data>

  datatype Command = CreateInvite(name: string, age: int) | AcceptInvite | DeclineInvite | ConfirmInvite | DenyInvite | OtherCommand

  datatype Invitation = Invitation(name: string, age: int, accepted: bool, declined: bool, confirmed: bool, denied: bool)

  // ----- The aggregate -----

  function Decide(s: Invitation, cmd: Command): Option<seq<InviteKind>> {
    match cmd
    case CreateInvite(name, age) => Some([Kind(InviteCreated, InviteCreatedData(name, age))])
    case AcceptInvite =>
      if s.name == "" || s.declined then None
      else if s.accepted then Some([]) else Some([Kind(InviteAccepted, NoData)])
    case DeclineInvite =>
      if s.name == "" || s.accepted then None
      else if s.declined then Some([]) else Some([Kind(InviteDeclined, NoData)])
    case ConfirmInvite =>
      if s.name == "" || !s.accepted || s.declined then None else Some([Kind(InviteConfirmed, NoData)])
    case DenyInvite =>
      if s.name == "" || !s.accepted || s.declined then None else Some([Kind(InviteDenied, NoData)])
    case OtherCommand => None
  }

  /** Events that the aggregate does not know are ignored. */
  function Apply(s: Invitation, k: InviteKind): Invitation {
    match k.etype
    case InviteCreated => if k.data.InviteCreatedData? then s.(name := k.data.name, age := k.data.age) else s
    case InviteAccepted => s.(accepted := true)
    case InviteDeclined => s.(declined := true)
    case InviteConfirmed => s.(confirmed := true)
    case InviteDenied => s.(denied := true)
    case OtherType => s
  }

  function Dom(): Domain<Invitation, Command, InviteKind> {
    Domain(_ => Invitation("", 0, false, false, false, false), (_, s, cmd) => Decide(s, cmd), (_, s, k) => Some(Apply(s, k)))
  }

  class InvitationAggregate {
    var name: string
    var age: int
    var accepted: bool
    var declined: bool
    var confirmed: bool
    var denied: bool
    var emitted: seq<InviteKind>

    constructor ()
      ensures State() == Invitation("", 0, false, false, false, false) && emitted == []
    {
      name, age, accepted, declined, confirmed, denied, emitted := "", 0, false, false, false, false, [];
    }

    ghost function State(): Invitation
      reads this
    {
      Invitation(name, age, accepted, declined, confirmed, denied)
    }

    method HandleCommand(cmd: Command) returns (ok: bool)
      modifies this`emitted
      ensures ok == Decide(State(), cmd).Some?
      ensures emitted == old(emitted) + if ok then Decide(State(), cmd).value else []
    {
      match cmd {
      case CreateInvite(name, age) =>
        emitted := emitted + [Kind(InviteCreated, InviteCreatedData(name, age))];
        return true;
      case AcceptInvite =>
        if name == "" { return false; }
        if declined { return false; }
        if accepted { return true; }
        emitted := emitted + [Kind(InviteAccepted, NoData)];
        return true;
      case DeclineInvite =>
        if name == "" { return false; }
        if accepted { return false; }
        if declined { return true; }
        emitted := emitted + [Kind(InviteDeclined, NoData)];
        return true;
      case ConfirmInvite =>
        if name == "" { return false; }
        if !accepted || declined { return false; }
        emitted := emitted + [Kind(InviteConfirmed, NoData)];
        return true;
      case DenyInvite =>
        if name == "" { return false; }
        if !accepted || declined { return false; }
        emitted := emitted + [Kind(InviteDenied, NoData)];
        return true;
      case OtherCommand => return false;
      }
    }

    method ApplyEvent(k: InviteKind)
      modifies this
      ensures State() == Apply(old(State()), k) && emitted == old(emitted)
    {
      match k.etype {
      case InviteCreated =>
        if k.data.InviteCreatedData? {
          name, age := k.data.name, k.data.age;
        }
      case InviteAccepted => accepted := true;
      case InviteDeclined => declined := true;
      case InviteConfirmed => confirmed := true;
      case InviteDenied => denied := true;
      case OtherType =>
      }
    }
  }

  // ----- What each command does -----

  /** The invitation after a command: its events applied in turn; None if the command is refused. */
  function Outcome(s: Invitation, cmd: Command): Option<Invitation> {
    var emitted := Decide(s, cmd);
    if emitted.None? then None else ApplyKinds(Dom(), INVITATION_TYPE, s, emitted.value)
  }

  lemma OneEventOutcome(s: Invitation, cmd: Command, k: InviteKind)
    requires Decide(s, cmd) == Some([k])
    ensures Outcome(s, cmd) == Some(Apply(s, k))
  {
    assert [k] == [] + [k];
    ApplyNext(Dom(), INVITATION_TYPE, s, [], k);
  }

  /** An invitation takes the name and age it is created with; the rest stays. */
  lemma CreateInviteIsExact(s: Invitation, name: string, age: int)
    ensures Outcome(s, CreateInvite(name, age)) == Some(Invitation(name, age, s.accepted, s.declined, s.confirmed, s.denied))
  {
    OneEventOutcome(s, CreateInvite(name, age), Kind(InviteCreated, InviteCreatedData(name, age)));
  }

  /** An invitation is accepted unless it does not exist or was declined; accepting again emits nothing. */
  lemma AcceptInviteIsExact(s: Invitation)
    ensures Decide(s, AcceptInvite).None? <==> s.name == "" || s.declined
    ensures s.name != "" && !s.declined ==>
              var t := Invitation(s.name, s.age, true, false, s.confirmed, s.denied);
              Outcome(s, AcceptInvite) == Some(t) && Decide(t, AcceptInvite) == Some([])
  {
    if s.name != "" && !s.declined && !s.accepted {
      OneEventOutcome(s, AcceptInvite, Kind(InviteAccepted, NoData));
    }
  }

  /** And declined unless it does not exist or was accepted. */
  lemma DeclineInviteIsExact(s: Invitation)
    ensures Decide(s, DeclineInvite).None? <==> s.name == "" || s.accepted
    ensures s.name != "" && !s.accepted ==>
              var t := Invitation(s.name, s.age, false, true, s.confirmed, s.denied);
              Outcome(s, DeclineInvite) == Some(t) && Decide(t, DeclineInvite) == Some([])
  {
    if s.name != "" && !s.accepted && !s.declined {
      OneEventOutcome(s, DeclineInvite, Kind(InviteDeclined, NoData));
    }
  }

  /** Exactly an accepted invitation can be confirmed or denied, which sets that and nothing else. */
  lemma AnswersAreExact(s: Invitation)
    ensures Decide(s, ConfirmInvite).Some? <==> s.name != "" && s.accepted && !s.declined
    ensures Decide(s, DenyInvite).Some? <==> s.name != "" && s.accepted && !s.declined
    ensures s.name != "" && s.accepted && !s.declined ==>
              && Outcome(s, ConfirmInvite) == Some(Invitation(s.name, s.age, true, false, true, s.denied))
              && Outcome(s, DenyInvite) == Some(Invitation(s.name, s.age, true, false, s.confirmed, true))
    ensures Decide(s, OtherCommand).None?
  {
    if s.name != "" && s.accepted && !s.declined {
      OneEventOutcome(s, ConfirmInvite, Kind(InviteConfirmed, NoData));
      OneEventOutcome(s, DenyInvite, Kind(InviteDenied, NoData));
    }
  }

  /** Events that are unknown, or were created without their data, change nothing. */
  lemma ApplyIgnores(s: Invitation, k: InviteKind)
    requires k.etype.OtherType? || (k.etype.InviteCreated? && !k.data.InviteCreatedData?)
    ensures Apply(s, k) == s
  {
  }

  // ----- Every reachable log -----

  ghost predicate Has(kinds: seq<InviteKind>, t: EventType) {
    exists i :: 0 <= i < |kinds| && kinds[i].etype == t
  }

  ghost predicate AtMostOnce(kinds: seq<InviteKind>, t: EventType) {
    forall i, j :: 0 <= i < j < |kinds| ==> kinds[i].etype != t || kinds[j].etype != t
  }

  /** An answer is given at most once, never both ways, and decisions follow an acceptance. */
  ghost predicate GoodLog(kinds: seq<InviteKind>, s: Invitation) {
    && (s.accepted <==> Has(kinds, InviteAccepted))
    && (s.declined <==> Has(kinds, InviteDeclined))
    && !(s.accepted && s.declined)
    && AtMostOnce(kinds, InviteAccepted) && AtMostOnce(kinds, InviteDeclined)
    && (Has(kinds, InviteConfirmed) || Has(kinds, InviteDenied) ==> s.accepted)
  }

  ghost function GoodLogs(): (seq<InviteKind>, Invitation) -> bool {
    (kinds, s) => GoodLog(kinds, s)
  }

  lemma HasNext(kinds: seq<InviteKind>, k: InviteKind, t: EventType)
    ensures Has(kinds + [k], t) <==> Has(kinds, t) || k.etype == t
  {
    if Has(kinds, t) {
      var i :| 0 <= i < |kinds| && kinds[i].etype == t;
      assert (kinds + [k])[i].etype == t;
    }
    assert (kinds + [k])[|kinds|] == k;
  }

  lemma OneEventKeepsGoodLog(kinds: seq<InviteKind>, s: Invitation, k: InviteKind)
    requires GoodLog(kinds, s)
    requires k.etype.InviteAccepted? || k.etype.InviteDeclined? ==> !s.accepted && !s.declined
    requires k.etype.InviteConfirmed? || k.etype.InviteDenied? ==> s.accepted
    ensures GoodLog(kinds + [k], Apply(s, k))
  {
    HasNext(kinds, k, InviteAccepted);
    HasNext(kinds, k, InviteDeclined);
    HasNext(kinds, k, InviteConfirmed);
    HasNext(kinds, k, InviteDenied);
  }

  lemma GoodLogsAreInductive()
    ensures C.Inductive(Dom(), INVITATION_TYPE, GoodLogs())
  {
    forall kinds, s, cmd | GoodLogs()(kinds, s)
      ensures C.KeptByCommand(Dom(), INVITATION_TYPE, GoodLogs(), kinds, s, cmd)
    {
      var emitted := Decide(s, cmd);
      if emitted.Some? && emitted.value == [] {
        assert kinds + [] == kinds;
      } else if emitted.Some? {
        var k := emitted.value[0];
        assert emitted.value == [] + [k];
        ApplyNext(Dom(), INVITATION_TYPE, s, [], k);
        OneEventKeepsGoodLog(kinds, s, k);
      }
    }
  }

  /** In every reachable state of the concurrent system, no invitation is both accepted and declined. */
  lemma AnsweredOnce(cfg: C.Config<Invitation, Command, InviteKind>, actions: seq<C.Action<Command>>, id: Uuid)
    requires cfg.dom == Dom() && OfType(Log(C.Events(C.Exec(cfg, actions)), id), INVITATION_TYPE)
    ensures var kinds := Kinds(Log(C.Events(C.Exec(cfg, actions)), id));
            && !(Has(kinds, InviteAccepted) && Has(kinds, InviteDeclined))
            && AtMostOnce(kinds, InviteAccepted) && AtMostOnce(kinds, InviteDeclined)
            && (Has(kinds, InviteConfirmed) || Has(kinds, InviteDenied) ==> Has(kinds, InviteAccepted))
  {
    GoodLogsAreInductive();
    C.CommandLogs(cfg, actions, INVITATION_TYPE, id, GoodLogs());
  }

  // ----- The saga -----

  datatype Order = Confirm(id: Uuid) | Deny(id: Uuid)

  /** What the saga is given: whether the event is an acceptance, and of which invitation. */
  datatype Notice = Notice(accepted: bool, id: Uuid)

  datatype Saga = Saga(guests: set<Uuid>, orders: seq<Order>)

  /** One call; the outcome of the issued command does not matter to the saga. */
  function React(s: Saga, limit: int, n: Notice): Saga {
    if !n.accepted || n.id in s.guests then s
    else if |s.guests| >= limit then s.(orders := s.orders + [Deny(n.id)])
    else Saga(s.guests + {n.id}, s.orders + [Confirm(n.id)])
  }

  function Run(limit: int, notices: seq<Notice>): Saga {
    if notices == [] then Saga({}, []) else React(Run(limit, notices[..|notices| - 1]), limit, notices[|notices| - 1])
  }

  class ResponseSaga {
    const guestLimit: int
    var acceptedGuests: map<Uuid, bool>
    var orders: seq<Order>

    constructor (guestLimit: int)
      ensures this.guestLimit == guestLimit && Valid() && State() == Saga({}, [])
    {
      this.guestLimit, acceptedGuests, orders := guestLimit, map[], [];
    }

    ghost predicate Valid()
      reads this
    {
      forall id <- acceptedGuests :: acceptedGuests[id]
    }

    ghost function State(): Saga
      reads this
    {
      Saga(acceptedGuests.Keys, orders)
    }

    method RunSaga(n: Notice)
      requires Valid()
      modifies this
      ensures Valid() && State() == React(old(State()), guestLimit, n)
    {
      if n.accepted {
        var ok := n.id in acceptedGuests && acceptedGuests[n.id];
        if ok {
          return;
        }
        assert |acceptedGuests| == |acceptedGuests.Keys|;
        if |acceptedGuests| >= guestLimit {
          orders := orders + [Deny(n.id)];
          return;
        }
        acceptedGuests := acceptedGuests[n.id := true];
        assert acceptedGuests.Keys == old(acceptedGuests).Keys + {n.id};
        orders := orders + [Confirm(n.id)];
      }
    }
  }

  ghost predicate Ordered(s: Saga, o: Order) {
    exists i :: 0 <= i < |s.orders| && s.orders[i] == o
  }

  ghost predicate SagaInv(s: Saga, limit: int) {
    && (s.guests == {} || |s.guests| <= limit)
    && (forall id: Uuid :: Ordered(s, Confirm(id)) <==> id in s.guests)
    && (forall i, j :: 0 <= i < j < |s.orders| && s.orders[i].Confirm? ==> s.orders[i] != s.orders[j])
    && (forall id: Uuid :: Ordered(s, Deny(id)) ==> id !in s.guests && |s.guests| >= limit)
  }

  lemma OrderedNext(s: Saga, t: Saga, o: Order, p: Order)
    requires t.orders == s.orders + [o]
    ensures Ordered(t, p) <==> Ordered(s, p) || p == o
  {
    if Ordered(s, p) {
      var i :| 0 <= i < |s.orders| && s.orders[i] == p;
      assert t.orders[i] == p;
    }
    assert t.orders[|s.orders|] == o;
  }

  lemma ReactKeepsInv(s: Saga, limit: int, n: Notice)
    requires SagaInv(s, limit)
    ensures SagaInv(React(s, limit, n), limit)
    ensures n.accepted ==> Ordered(React(s, limit, n), Confirm(n.id)) || Ordered(React(s, limit, n), Deny(n.id))
  {
    var t := React(s, limit, n);
    if t != s {
      var o := t.orders[|s.orders|];
      forall id: Uuid
        ensures Ordered(t, Confirm(id)) <==> id in t.guests
        ensures Ordered(t, Deny(id)) ==> id !in t.guests && |t.guests| >= limit
      {
        OrderedNext(s, t, o, Confirm(id));
        OrderedNext(s, t, o, Deny(id));
      }
      OrderedNext(s, t, o, o);
      forall i, j | 0 <= i < j < |t.orders| && t.orders[i].Confirm?
        ensures t.orders[i] != t.orders[j]
      {
        if j == |s.orders| && o.Confirm? {
          assert Ordered(s, s.orders[i]);
        }
      }
    }
  }

  /**
   The guest limit, over every sequence of notices with any duplicates: at most
   the limit is confirmed, each guest once, and nobody is both confirmed and
   denied.
   */
  lemma {:induction false} GuestLimitHolds(limit: int, notices: seq<Notice>)
    ensures SagaInv(Run(limit, notices), limit)
  {
    if notices != [] {
      GuestLimitHolds(limit, notices[..|notices| - 1]);
      ReactKeepsInv(Run(limit, notices[..|notices| - 1]), limit, notices[|notices| - 1]);
    }
  }

  /** Orders are never taken back. */
  lemma {:induction false} OrdersRemain(limit: int, notices: seq<Notice>, k: nat, o: Order)
    requires k <= |notices| && Ordered(Run(limit, notices[..k]), o)
    ensures Ordered(Run(limit, notices), o)
  {
    if k == |notices| {
      assert notices[..k] == notices;
    } else {
      var n := |notices| - 1;
      assert notices[..n][..k] == notices[..k];
      OrdersRemain(limit, notices[..n], k, o);
      var s, t := Run(limit, notices[..n]), Run(limit, notices);
      if t != s {
        OrderedNext(s, t, t.orders[|s.orders|], o);
      }
    }
  }

  /** Every acceptance is answered one way or the other. */
  lemma EveryAcceptanceIsAnswered(limit: int, notices: seq<Notice>, k: nat)
    requires k < |notices| && notices[k].accepted
    ensures var s, id := Run(limit, notices), notices[k].id; Ordered(s, Confirm(id)) || Ordered(s, Deny(id))
  {
    var before := notices[..k + 1];
    GuestLimitHolds(limit, notices[..k]);
    assert before[..k] == notices[..k];
    ReactKeepsInv(Run(limit, notices[..k]), limit, notices[k]);
    if Ordered(Run(limit, before), Confirm(notices[k].id)) {
      OrdersRemain(limit, notices, k + 1, Confirm(notices[k].id));
    } else {
      OrdersRemain(limit, notices, k + 1, Deny(notices[k].id));
    }
  }

  /** The saga orders nothing but answers to acceptances. */
  lemma {:induction false} OrdersAnswerAcceptances(limit: int, notices: seq<Notice>, o: Order)
    requires Ordered(Run(limit, notices), o)
    ensures exists k :: 0 <= k < |notices| && notices[k].accepted && notices[k].id == o.id
  {
    var n := |notices| - 1;
    var before := Run(limit, notices[..n]);
    if Ordered(before, o) {
      OrdersAnswerAcceptances(limit, notices[..n], o);
      var k :| 0 <= k < n && notices[..n][k].accepted && notices[..n][k].id == o.id;
      assert notices[k].accepted && notices[k].id == o.id;
    } else {
      var t := Run(limit, notices);
      OrderedNext(before, t, t.orders[|before.orders|], o);
      assert notices[n].accepted;
    }
  }

  /** While there is room, a guest who accepts for the first time is confirmed. */
  lemma RoomLeftConfirms(limit: int, notices: seq<Notice>, id: Uuid)
    requires |Run(limit, notices).guests| < limit && id !in Run(limit, notices).guests
    ensures Ordered(Run(limit, notices + [Notice(true, id)]), Confirm(id))
  {
    var s, t := Run(limit, notices), Run(limit, notices + [Notice(true, id)]);
    assert (notices + [Notice(true, id)])[..|notices|] == notices;
    OrderedNext(s, t, Confirm(id), Confirm(id));
  }

  // ----- The whole system -----

  /** Confirmed events come only from commands to confirm, in every reachable state. */
  lemma ConfirmedWasRequested(cfg: C.Config<Invitation, Command, InviteKind>, actions: seq<C.Action<Command>>, i: nat)
    requires cfg.dom == Dom() && i < |C.Events(C.Exec(cfg, actions))|
    requires C.Events(C.Exec(cfg, actions))[i].kind.etype.InviteConfirmed?
    ensures var s := C.Exec(cfg, actions);
            exists k :: 0 <= k < |s.history| && s.history[k].id == C.Events(s)[i].id && s.history[k].cmd.ConfirmInvite?
  {
    C.EventsWereEmitted(cfg, actions);
    var s := C.Exec(cfg, actions);
    var r := C.Events(s)[i];
    assert C.Caused(cfg.dom, s.history, r);
    var k :| 0 <= k < |s.history| && C.Emits(cfg.dom, s.history[k], r);
    var state: Invitation :| C.EmitsOn(cfg.dom, s.history[k], state, r.kind);
    OnlyConfirmConfirms(state, s.history[k].cmd, r.kind);
  }

  lemma OnlyConfirmConfirms(s: Invitation, cmd: Command, k: InviteKind)
    requires Decide(s, cmd).Some? && k in Decide(s, cmd).value && k.etype.InviteConfirmed?
    ensures cmd.ConfirmInvite?
  {
  }

  ghost function ConfirmedIds(events: seq<Record<InviteKind>>): set<Uuid> {
    set i | 0 <= i < |events| && events[i].kind.etype.InviteConfirmed? :: events[i].id
  }

  /**
   If only the saga issues commands to confirm, at most the limit of invitations
   is confirmed, however commands interleave, fail and are retried.
   */
  lemma AtMostLimitConfirmed(
    cfg: C.Config<Invitation, Command, InviteKind>, actions: seq<C.Action<Command>>, limit: int, notices: seq<Notice>)
    requires cfg.dom == Dom()
    requires forall i :: 0 <= i < |actions| && actions[i].Begin? && actions[i].req.cmd.ConfirmInvite? ==>
               Ordered(Run(limit, notices), Confirm(actions[i].req.id))
    ensures var confirmed := ConfirmedIds(C.Events(C.Exec(cfg, actions)));
            confirmed == {} || |confirmed| <= limit
  {
    var s, saga := C.Exec(cfg, actions), Run(limit, notices);
    GuestLimitHolds(limit, notices);
    var p := (req: C.Request<Command>) => req.cmd.ConfirmInvite? ==> req.id in saga.guests;
    C.HistoryWasBegun(cfg, actions, p);
    var events, confirmed := C.Events(s), ConfirmedIds(C.Events(s));
    forall id <- confirmed
      ensures id in saga.guests
    {
      var i :| 0 <= i < |events| && events[i].kind.etype.InviteConfirmed? && events[i].id == id;
      ConfirmedWasRequested(cfg, actions, i);
      var k :| 0 <= k < |s.history| && s.history[k].id == id && s.history[k].cmd.ConfirmInvite?;
      assert p(s.history[k]);
    }
    SubsetSize(confirmed, saga.guests);
  }

  lemma SubsetSize(a: set<Uuid>, b: set<Uuid>)
    requires a <= b
    ensures |a| <= |b|
  {
    assert |b| == |a| + |b - a| by { assert b == a + (b - a); }
  }
}
