/** The room's inbox key in the life of a page: where it comes from, when it is registered,
    and that the server always hears of it. */
module PageInbox {
  import opened Wrappers
  import opened StoreSpec
  import S = StoreSpec
  import opened Wire
  import opened Browser
  import B = Browser
  import J = JoinSpec
  import opened ClaimCount
  import opened PageLaws

  /** The page can read what applicants write: its inbox key is the one the room registered. */
  predicate CanRead(p: Page) {
    p.rk.Some? && p.rk.value.inbox != "" && p.rk.value.inbox == p.roomInboxPub
  }

  // ----- after an approval -----

  /** A new member can read applicants' messages once its claim is answered, if its approver
      could and the room has kept the inbox key that the approver knew. */
  lemma ApprovedCanRead(p: Page, a: Page, q: Request, room: Room, now: int, pub: string, wrap: string,
                        list: seq<Request>, d1: Drawn, d2: Drawn, vault: Vault)
    requires CanRead(p) && room.inboxPub == p.roomInboxPub
    requires a.rk.None? && q.status == Approved && q.approverPub == pub && q.wrap == wrap && q.pub == a.me
    ensures var w := ApproveRequest(p, q, pub, wrap).2;
      var (a1, us) := B.OnServer(a, JoinStatus(Success(q), ""), d1, vault[wrap := w]);
      var (r, ok) := S.Claim(Some(room), now, false, p.rk.value.inbox);
      && us == [JoinDone(q.id), ClaimRoom(false, p.rk.value.inbox)] && ok
      && var a2 := B.OnServer(a1, J.AnswerMsg(r, ok, list), d2, vault).0;
         CanRead(a2) && a2.rk == p.rk && a2.claimed
  {
    var w := ApproveRequest(p, q, pub, wrap).2;
    var a1 := B.OnServer(a, JoinStatus(Success(q), ""), d1, vault[wrap := w]).0;
    AnnouncesOnly(a1.(creating := false, claimed := true), a1.roomPeers);
  }

  /** One whose approver could not read gets no inbox key; if the room has none either, its
      own first claim registers one, and then it can read. */
  lemma ApprovedRegisters(p: Page, a: Page, q: Request, room: Room, now: int, pub: string, wrap: string,
                          list: seq<Request>, more: seq<Request>, d1: Drawn, d2: Drawn, d3: Drawn, vault: Vault)
    requires p.rk.Some? && !CanRead(p) && room.inboxPub == "" && CleanPub(d2.inbox) == d2.inbox != ""
    requires a.rk.None? && !a.inboxClaimed
    requires q.status == Approved && q.approverPub == pub && q.wrap == wrap && q.pub == a.me
    ensures var w := ApproveRequest(p, q, pub, wrap).2;
      var a1 := B.OnServer(a, JoinStatus(Success(q), ""), d1, vault[wrap := w]).0;
      var (r, ok) := S.Claim(Some(room), now, false, "");
      var (a2, us) := B.OnServer(a1, J.AnswerMsg(r, ok, list), d2, vault);
      && a1.rk == Some(RoomKey(p.rk.value.key, ""))
      && us != [] && us[|us| - 1] == ClaimRoom(false, d2.inbox)
      && var (r2, ok2) := S.Claim(r, now, false, d2.inbox);
         ok2 && CanRead(B.OnServer(a2, J.AnswerMsg(r2, ok2, more), d3, vault).0)
  {
    var w := ApproveRequest(p, q, pub, wrap).2;
    var a1 := B.OnServer(a, JoinStatus(Success(q), ""), d1, vault[wrap := w]).0;
    var (r, ok) := S.Claim(Some(room), now, false, "");
    assert r == Some(room.(lastActive := now)) && ok;
    var a2 := FirstResult(a1, list, d2, vault);
    AnnouncesOnly(a2.(creating := false, claimed := true), a2.roomPeers);
  }

  /** The first confirmation in a room without an inbox key. */
  lemma FirstResult(p: Page, list: seq<Request>, drawn: Drawn, vault: Vault) returns (p': Page)
    requires p.rk.Some? && !p.inboxClaimed && p.rk.value.inbox == ""
    ensures var (p2, us) := B.OnServer(p, ClaimResult(true, list, ""), drawn, vault);
      && p' == p2 && p'.rk == Some(RoomKey(p.rk.value.key, drawn.inbox)) && p'.inboxClaimed && p'.cards == map[]
      && us != [] && us[|us| - 1] == ClaimRoom(false, drawn.inbox)
  {
    var p0 := p.(creating := false, claimed := true);
    AnnouncesOnly(p0, p.roomPeers);
    p' := B.OnServer(p, ClaimResult(true, list, ""), drawn, vault).0;
  }

  // ----- what one event does to it -----

  /** What follows the announcements of a confirmed page. */
  predicate InboxTaken(p: Page, list: seq<Request>, inbox: string, drawn: Drawn, p': Page)
    requires p.rk.Some?
  {
    var first := inbox == "" && !p.inboxClaimed;
    var mine := if p.rk.value.inbox != "" then p.rk.value.inbox else drawn.inbox;
    && p'.roomInboxPub == inbox && p'.inboxClaimed == (p.inboxClaimed || first)
    && p'.rk == Some(RoomKey(p.rk.value.key, if first then mine else p.rk.value.inbox))
    && (if first then p'.cards == if p.rk.value.inbox == "" then map[] else p.cards else p'.cards.Keys == Ids(list))
  }

  lemma TakesInbox(p: Page, list: seq<Request>, inbox: string, drawn: Drawn)
    requires p.rk.Some? && p.claimed
    ensures var (p', us) := OnClaimed(p, list, inbox, drawn);
      && InboxTaken(p, list, inbox, drawn, p')
      && us == if inbox == "" && !p.inboxClaimed then [ClaimRoom(false, p'.rk.value.inbox)] else []
  {
    CardsFollowTheList(p.(roomInboxPub := inbox), list);
  }

  /** A confirmation: the page learns which inbox key the room has.  Where there is none and
      it has not tried before, it registers its own, drawing one if it has none, and a new one
      clears the cards; otherwise it claims nothing and shows the requests listed. */
  lemma ConfirmedInbox(p: Page, list: seq<Request>, inbox: string, drawn: Drawn, vault: Vault)
    requires p.rk.Some?
    ensures var (p', us) := B.OnServer(p, ClaimResult(true, list, inbox), drawn, vault);
      var first := inbox == "" && !p.inboxClaimed;
      && InboxTaken(p, list, inbox, drawn, p')
      && Count(us, ClaimUp) == (if first then 1 else 0)
      && (first ==> us != [] && us[|us| - 1] == ClaimRoom(false, p'.rk.value.inbox))
  {
    var p0 := p.(creating := false, claimed := true);
    var (p1, u1) := AnnounceAll(p0, p.roomPeers);
    var (p2, u2) := OnClaimed(p1, list, inbox, drawn);
    AnnouncesEach(p0, p.roomPeers);
    TakesInbox(p1, list, inbox, drawn);
    CountNone(u1, ClaimUp);
    CountConcat(u1, u2, ClaimUp);
    if u2 != [] { CountOne(u2[0], ClaimUp); }
  }

  /** A list of requests tells a member with a key of the room's inbox key, if it names one,
      and redraws its cards; nothing is written. */
  lemma ListedInbox(p: Page, list: seq<Request>, inbox: string, drawn: Drawn, vault: Vault)
    ensures var (p', us) := B.OnServer(p, JoinRequests(list, inbox), drawn, vault);
      && us == [] && p' == p.(cards := p'.cards, roomInboxPub := p'.roomInboxPub)
      && p'.roomInboxPub == (if p.rk.Some? && inbox != "" then inbox else p.roomInboxPub)
      && p'.cards.Keys == (if p.rk.None? then p.cards.Keys else if p.claimed then Ids(list) else {})
  {
    CardsFollowTheList(if inbox == "" then p else p.(roomInboxPub := inbox), list);
  }

  /** A peer's hello: a page that cannot read takes over the inbox key it brings exactly if
      that is the one the room registered, and then claims with it and redraws its cards. */
  lemma HelloInbox(p: Page, inbox: string)
    requires p.rk.Some?
    ensures var (p', us) := Step(p, Adopts(inbox));
      if !CanRead(p) && inbox != "" && inbox == p.roomInboxPub
      then CanRead(p') && p'.rk == Some(RoomKey(p.rk.value.key, inbox)) && p'.cards == map[]
           && us == [ClaimRoom(false, inbox)] && p' == p.(rk := p'.rk, cards := map[], creating := false)
      else p' == p && us == []
  {}

  // ----- over the life of a page -----

  /** The inbox key last named by the server, to a page that listened. */
  ghost function LastNamed(p: Page, es: seq<PageEvent>): string {
    if es == [] then p.roomInboxPub
    else
      var n := |es| - 1;
      match es[n]
      case Hears(ClaimResult(ok, _, inbox), _, _) => if ok then inbox else LastNamed(p, es[..n])
      case Hears(JoinRequests(_, inbox), _, _) =>
        if inbox != "" && Live(p, es[..n]).0.rk.Some? then inbox else LastNamed(p, es[..n])
      case _ => LastNamed(p, es[..n])
  }

  /** The room's inbox key, as a page knows it, is the one last named to it. */
  lemma {:induction false} KnowsTheRoomsInbox(p: Page, es: seq<PageEvent>)
    ensures Live(p, es).0.roomInboxPub == LastNamed(p, es)
  {
    if es != [] {
      var n := |es| - 1;
      KnowsTheRoomsInbox(p, es[..n]);
      StepNames(Live(p, es[..n]).0, es[n]);
    }
  }

  lemma StepNames(p: Page, e: PageEvent)
    ensures Step(p, e).0.roomInboxPub == match e
      case Hears(ClaimResult(ok, _, inbox), _, _) => if ok then inbox else p.roomInboxPub
      case Hears(JoinRequests(_, inbox), _, _) => if inbox != "" && p.rk.Some? then inbox else p.roomInboxPub
      case _ => p.roomInboxPub
  {
    if e.Hears? && e.msg.ClaimResult? && e.msg.ok {
      AnnouncesOnly(p.(creating := false, claimed := true), p.roomPeers);
    }
  }

  /** The inbox key named by the last claim among these messages, if there is one. */
  function LastClaim(us: seq<Up>): Option<string> {
    if us == [] then None
    else if us[|us| - 1].ClaimRoom? then Some(us[|us| - 1].inboxPub)
    else LastClaim(us[..|us| - 1])
  }

  lemma {:induction false} LastClaimOf(us: seq<Up>, more: seq<Up>)
    ensures LastClaim(us + more) == if LastClaim(more).Some? then LastClaim(more) else LastClaim(us)
    decreases |more|
  {
    if more == [] {
      assert us + more == us;
    } else {
      assert (us + more)[..|us + more| - 1] == us + more[..|more| - 1];
      LastClaimOf(us, more[..|more| - 1]);
    }
  }

  lemma {:induction false} NoLastClaim(us: seq<Up>)
    requires forall u :: u in us ==> !u.ClaimRoom?
    ensures LastClaim(us) == None
  {
    if us != [] { NoLastClaim(us[..|us| - 1]); }
  }

  /** What a page wrote by way of claims speaks for the key it holds. */
  predicate Spoken(p: Page, us: seq<Up>, p': Page) {
    match LastClaim(us)
    case Some(inbox) => p'.rk.Some? && inbox == p'.rk.value.inbox
    case None => p'.rk == p.rk || p'.rk.None?
  }

  lemma ConfirmedSpeaks(p: Page, list: seq<Request>, inbox: string, drawn: Drawn)
    ensures var (p', us) := OnClaimResult(p, true, list, inbox, drawn); Spoken(p, us, p')
  {
    var p0 := p.(creating := false, claimed := true);
    var (p1, u1) := AnnounceAll(p0, p.roomPeers);
    var (p2, u2) := OnClaimed(p1, list, inbox, drawn);
    AnnouncesOnly(p0, p.roomPeers);
    if p.rk.Some? { AnnouncesEach(p0, p.roomPeers); } else { KeylessSilent(p0, p.roomPeers); }
    NoLastClaim(u1);
    LastClaimOf(u1, u2);
    if u2 != [] { OneOrTwo(u2[0], u2[0]); assert u2 == [u2[0]]; }
  }

  lemma {:induction false} KeylessSilent(p: Page, ids: seq<Id>)
    requires p.rk.None?
    ensures AnnounceAll(p, ids).1 == []
  {
    if ids != [] {
      AnnouncesOnly(p, ids[..|ids| - 1]);
      KeylessSilent(p, ids[..|ids| - 1]);
    }
  }

  lemma OneOrTwo(u: Up, v: Up)
    ensures LastClaim([v]) == if v.ClaimRoom? then Some(v.inboxPub) else None
    ensures v.ClaimRoom? ==> LastClaim([u, v]) == Some(v.inboxPub)
  {
    assert [v][..0] == [] && [u, v][..1] == [u];
  }

  lemma MessageSpeaks(p: Page, e: PageEvent)
    requires e.Hears? && !e.msg.ClaimResult? && !e.msg.Kx?
    ensures var (p', us) := Step(p, e); Spoken(p, us, p')
  {
    var us := Step(p, e).1;
    if |us| == 1 {
      OneOrTwo(us[0], us[0]);
      assert us == [us[0]];
    } else if |us| == 2 {
      OneOrTwo(us[0], us[1]);
      assert us == [us[0], us[1]];
    }
  }

  lemma KxSpeaks(p: Page, from: Id, k: Key)
    ensures var (p', us) := OnKx(p, from, k); Spoken(p, us, p')
  {
    var (p1, u1) := Announce(p, from);
    NoLastClaim(OnKx(p, from, k).1);
  }

  lemma StepSpeaks(p: Page, e: PageEvent)
    ensures var (p', us) := Step(p, e); Spoken(p, us, p')
  {
    match e
    case Hears(Kx(from, k), _, _) => KxSpeaks(p, from, k);
    case Hears(ClaimResult(ok, list, inbox), drawn, _) =>
      if ok { ConfirmedSpeaks(p, list, inbox, drawn); } else { NoLastClaim(Step(p, e).1); }
    case Hears(_, _, _) => MessageSpeaks(p, e);
    case Adopts(inbox) =>
      var us := Step(p, e).1;
      if us != [] { OneOrTwo(us[0], us[0]); assert us == [us[0]]; }
    case Loses =>
  }

  /** Main result: at every moment the last claim a page wrote named the inbox key it now
      holds; if it wrote none, or lost its key and has none, nothing is out of date either.
      So the server is told of every inbox key a page comes to hold. */
  lemma {:induction false} TheServerIsTold(p: Page, es: seq<PageEvent>)
    ensures var (p', us) := Live(p, es);
      p'.rk.Some? ==> match LastClaim(us)
        case Some(inbox) => inbox == p'.rk.value.inbox
        case None => p'.rk == p.rk
  {
    if es != [] {
      var n := |es| - 1;
      TheServerIsTold(p, es[..n]);
      var (p1, u1) := Live(p, es[..n]);
      StepSpeaks(p1, es[n]);
      LastClaimOf(u1, Step(p1, es[n]).1);
    }
  }

  /** The event offers an inbox key: one the page draws, one sealed with an approval, or one
      of a peer. */
  predicate Offers(me: string, e: PageEvent, inbox: string) {
    match e
    case Hears(JoinStatus(status, _), _, vault) =>
      && status.Success?
      && var got := Unwrap(vault, me, status.value.approverPub, status.value.wrap);
         got.Some? && got.value.inbox == inbox
    case Hears(Welcome(_, _, known, _), drawn, _) => !known && drawn.inbox == inbox
    case Hears(ClaimResult(ok, _, named), drawn, _) => ok && named == "" && drawn.inbox == inbox
    case Adopts(x) => x == inbox
    case _ => false
  }

  predicate Offered(p: Page, e: PageEvent, p': Page) {
    && p'.me == p.me
    && (p'.rk.Some? ==> (p.rk.Some? && p'.rk.value.inbox == p.rk.value.inbox) || Offers(p.me, e, p'.rk.value.inbox))
  }

  lemma ResultOffers(p: Page, e: PageEvent)
    requires Confirms(e)
    ensures Offered(p, e, Step(p, e).0)
  {
    AnnouncesOnly(p.(creating := false, claimed := true), p.roomPeers);
  }

  lemma OtherOffers(p: Page, e: PageEvent)
    requires e.Hears? && !Confirms(e)
    ensures Offered(p, e, Step(p, e).0)
  {}

  lemma StepOffers(p: Page, e: PageEvent)
    ensures Offered(p, e, Step(p, e).0)
  {
    if Confirms(e) { ResultOffers(p, e); } else if e.Hears? { OtherOffers(p, e); }
  }

  /** A page's inbox key is the one it opened with or one that some event offered. */
  lemma {:induction false} InboxHasSource(p: Page, es: seq<PageEvent>)
    ensures var p' := Live(p, es).0;
      && p'.me == p.me
      && (p'.rk.Some? ==>
            (p.rk.Some? && p'.rk.value.inbox == p.rk.value.inbox) || exists e :: e in es && Offers(p.me, e, p'.rk.value.inbox))
  {
    if es != [] {
      var n := |es| - 1;
      InboxHasSource(p, es[..n]);
      StepOffers(Live(p, es[..n]).0, es[n]);
      assert es[n] in es && forall e :: e in es[..n] ==> e in es;
    }
  }

  // ----- once in a life -----

  /** The page answers a confirmation by registering an inbox key. */
  predicate Registers(p: Page, e: PageEvent) {
    Confirms(e) && LastClaim(Step(p, e).1).Some?
  }

  ghost function Registrations(p: Page, es: seq<PageEvent>): nat {
    if es == [] then 0
    else Registrations(p, es[..|es| - 1]) + (if Registers(Live(p, es[..|es| - 1]).0, es[|es| - 1]) then 1 else 0)
  }

  lemma StepRegisters(p: Page, e: PageEvent)
    requires p.rk.Some? || !Confirms(e)
    ensures var p' := Step(p, e).0;
      && Registers(p, e) == (Confirms(e) && e.msg.inboxPub == "" && !p.inboxClaimed)
      && p'.inboxClaimed == (p.inboxClaimed || Registers(p, e))
  {
    if Confirms(e) { ResultRegisters(p, e); }
  }

  lemma ResultRegisters(p: Page, e: PageEvent)
    requires p.rk.Some? && Confirms(e)
    ensures var p' := Step(p, e).0;
      && Registers(p, e) == (e.msg.inboxPub == "" && !p.inboxClaimed)
      && p'.inboxClaimed == (p.inboxClaimed || (e.msg.inboxPub == "" && !p.inboxClaimed))
  {
    var p0 := p.(creating := false, claimed := true);
    var (p1, u1) := AnnounceAll(p0, p.roomPeers);
    AnnouncesEach(p0, p.roomPeers);
    TakesInbox(p1, e.msg.requests, e.msg.inboxPub, e.drawn);
    var u2 := OnClaimed(p1, e.msg.requests, e.msg.inboxPub, e.drawn).1;
    NoLastClaim(u1);
    LastClaimOf(u1, u2);
    if u2 != [] { OneOrTwo(u2[0], u2[0]); }
  }

  /** Confirmations reach a page only while it has a key. */
  ghost predicate Orderly(p: Page, es: seq<PageEvent>) {
    forall n :: 0 <= n < |es| && Confirms(es[n]) ==> Live(p, es[..n]).0.rk.Some?
  }

  lemma OrderlyPrefix(p: Page, es: seq<PageEvent>)
    requires Orderly(p, es) && es != []
    ensures Orderly(p, es[..|es| - 1])
  {
    var init := es[..|es| - 1];
    forall n | 0 <= n < |init| && Confirms(init[n]) ensures Live(p, init[..n]).0.rk.Some? {
      assert init[n] == es[n] && init[..n] == es[..n];
    }
  }

  /** However often it loses its connection, a page registers an inbox key of its own at most
      once in its life, and does so if it is ever told that the room has none. */
  lemma {:induction false} RegistersOnce(p: Page, es: seq<PageEvent>)
    requires Orderly(p, es)
    ensures Registrations(p, es) + (if p.inboxClaimed then 1 else 0) == (if Live(p, es).0.inboxClaimed then 1 else 0)
    ensures !p.inboxClaimed ==>
      (Registrations(p, es) == 1 <==> exists e :: e in es && Confirms(e) && e.msg.inboxPub == "")
  {
    if es != [] {
      var n := |es| - 1;
      OrderlyPrefix(p, es);
      RegistersOnce(p, es[..n]);
      assert Confirms(es[n]) ==> Live(p, es[..n]).0.rk.Some?;
      StepRegisters(Live(p, es[..n]).0, es[n]);
      assert es[n] in es && forall e :: e in es <==> e in es[..n] || e == es[n];
    }
  }

  /** So does a page as it opens. */
  lemma OpenedRegistersOnce(name: string, me: string, saved: Option<RoomKey>, es: seq<PageEvent>)
    requires Orderly(Opened(name, me, saved), es)
    ensures Registrations(Opened(name, me, saved), es) <= 1
    ensures Registrations(Opened(name, me, saved), es) == 1 <==> exists e :: e in es && Confirms(e) && e.msg.inboxPub == ""
  {
    RegistersOnce(Opened(name, me, saved), es);
  }

  /** Cards change only with a confirmation, a new list, or a new inbox key: a lost connection
      leaves them. */
  lemma CardsStay(p: Page, e: PageEvent)
    requires !Confirms(e) && !(e.Hears? && e.msg.JoinRequests?) && !e.Adopts?
    ensures Step(p, e).0.cards == p.cards
  {}
}
