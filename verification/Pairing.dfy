/** Pairing codes and Telegram links: who may redeem a code, and which installation a user drives. */
module Pairing {
  import opened Common

  type Install = nat
  type User = nat
  /** The value kept for a code: the same code always has the same one, and no two codes share one. */
  type CodeHash = nat

  const MAX_TTL: nat := 10 * 60_000
  const DAY: nat := 24 * 60 * 60_000

  datatype Code = Code(install: Install, expiresAt: int, used: bool, createdAt: int)

  datatype Link = Link(user: User, chat: nat, pairedAt: int)

  datatype Tables = Tables(codes: map<CodeHash, Code>, links: map<Install, Link>)

  const EMPTY := Tables(map[], map[])

  datatype Identity = Identity(user: User, chat: nat)

  datatype PairOutcome = RateLimited | PairFailed | PairRefused | Paired(install: Install, displaced: set<Install>)

  // ---------------------------------------------------------------------------
  // The statements
  // ---------------------------------------------------------------------------

  /** DELETE ... WHERE install_id = ? AND used_at IS NULL */
  function Withdrawn(codes: map<CodeHash, Code>, i: Install): map<CodeHash, Code> {
    map h | h in codes && !(codes[h].install == i && !codes[h].used) :: codes[h]
  }

  /** The upsert's WHERE: a row still on offer is not taken over. */
  predicate Free(codes: map<CodeHash, Code>, h: CodeHash, now: int) {
    h !in codes || codes[h].used || codes[h].expiresAt <= now
  }

  function Offered(codes: map<CodeHash, Code>, i: Install, h: CodeHash, expiresAt: int, now: int): map<CodeHash, Code> {
    var rest := Withdrawn(codes, i);
    if Free(rest, h, now) then rest[h := Code(i, Min(expiresAt, now + MAX_TTL), false, now)] else rest
  }

  /** The consuming UPDATE matches an unused, unexpired row. */
  predicate Redeemable(codes: map<CodeHash, Code>, h: CodeHash, now: int) {
    h in codes && !codes[h].used && codes[h].expiresAt > now
  }

  function Consumed(codes: map<CodeHash, Code>, h: CodeHash, now: int): map<CodeHash, Code> {
    if Redeemable(codes, h, now) then codes[h := codes[h].(used := true)] else codes
  }

  function Others(links: map<Install, Link>, i: Install, u: User): set<Install> {
    set o | o in links && links[o].user == u && o != i
  }

  function Linked(links: map<Install, Link>, i: Install, who: Identity, now: int): map<Install, Link> {
    links[i := Link(who.user, who.chat, now)] - Others(links, i, who.user)
  }

  function Purged(codes: map<CodeHash, Code>, now: int): map<CodeHash, Code> {
    map h | h in codes && !codes[h].used && codes[h].expiresAt >= now - DAY :: codes[h]
  }

  class PairingStore {
    var codes: map<CodeHash, Code>
    var links: map<Install, Link>

    constructor ()
      ensures State() == EMPTY
    {
      codes, links := map[], map[];
    }

    function State(): Tables
      reads this
    {
      Tables(codes, links)
    }

    /** One batch: the installation's own unused codes go even when the new one is refused. */
    method StorePairOffer(i: Install, h: CodeHash, expiresAt: int, now: int) returns (r: Result<int>)
      modifies this`codes
      ensures codes == Offered(old(codes), i, h, expiresAt, now)
      ensures r.Ok? <==> Free(Withdrawn(old(codes), i), h, now)
      ensures r.Ok? ==> r.value == Min(expiresAt, now + MAX_TTL) && Redeemable(codes, h, now) == (expiresAt > now)
    {
      var clamped := Min(expiresAt, now + MAX_TTL);
      codes := map k | k in codes && !(codes[k].install == i && !codes[k].used) :: codes[k];
      if h in codes && !codes[h].used && codes[h].expiresAt > now {
        return Err(Conflict);
      }
      codes := codes[h := Code(i, clamped, false, now)];
      return Ok(clamped);
    }

    method ConsumePairCode(h: CodeHash, now: int) returns (r: Option<Install>)
      modifies this`codes
      ensures codes == Consumed(old(codes), h, now)
      ensures r == if Redeemable(old(codes), h, now) then Some(old(codes)[h].install) else None
    {
      if h in codes && !codes[h].used && codes[h].expiresAt > now {
        codes := codes[h := codes[h].(used := true)];
        return Some(codes[h].install);
      }
      return None;
    }

    method LinkTelegram(i: Install, who: Identity, now: int) returns (displaced: set<Install>)
      modifies this`links
      ensures links == Linked(old(links), i, who, now)
      ensures displaced == Others(old(links), i, who.user)
    {
      displaced := set o | o in links && links[o].user == who.user && o != i;
      links := links[i := Link(who.user, who.chat, now)];
      if displaced != {} {
        links := map o | o in links && !(links[o].user == who.user && o != i) :: links[o];
      }
    }

    method UnlinkInstall(i: Install) returns (had: bool)
      modifies this
      ensures had == (i in old(links))
      ensures links == old(links) - {i} && codes == Withdrawn(old(codes), i)
    {
      had := i in links;
      links := links - {i};
      codes := map k | k in codes && !(codes[k].install == i && !codes[k].used) :: codes[k];
    }

    method PurgeStale(now: int)
      modifies this`codes
      ensures codes == Purged(old(codes), now)
      ensures forall h :: h in codes <==> h in old(codes) && !old(codes)[h].used && old(codes)[h].expiresAt >= now - 86_400_000
    {
      codes := map k | k in codes && !(codes[k].used || codes[k].expiresAt < now - DAY) :: codes[k];
    }

    /** The /pair command. `code` is missing when malformed or when the gateway holds no pepper. */
    method Pair(who: Identity, limited: bool, code: Option<CodeHash>, now: int) returns (r: PairOutcome)
      modifies this
      ensures (State(), r) == Redeemed(old(State()), who, limited, code, now)
    {
      if limited {
        return RateLimited;
      }
      if code.None? {
        return PairFailed;
      }
      var found := ConsumePairCode(code.value, now);
      if found.None? {
        return PairFailed;
      }
      var i := found.value;
      if i in links && links[i].user != who.user {
        return PairRefused;
      }
      var displaced := LinkTelegram(i, who, now);
      return Paired(i, displaced);
    }
  }

  function Redeemed(t: Tables, who: Identity, limited: bool, code: Option<CodeHash>, now: int): (Tables, PairOutcome) {
    if limited then (t, RateLimited)
    else if code.None? then (t, PairFailed)
    else if !Redeemable(t.codes, code.value, now) then (t, PairFailed)
    else
      var codes := Consumed(t.codes, code.value, now);
      var i := t.codes[code.value].install;
      if i in t.links && t.links[i].user != who.user then (Tables(codes, t.links), PairRefused)
      else (Tables(codes, Linked(t.links, i, who, now)), Paired(i, Others(t.links, i, who.user)))
  }

  // ---------------------------------------------------------------------------
  // Runs
  // ---------------------------------------------------------------------------

  datatype Event =
    | Offer(install: Install, hash: CodeHash, expiresAt: int, now: int)
    | Pair(who: Identity, limited: bool, code: Option<CodeHash>, now: int)
    | Unlink(install: Install, now: int)
    | Purge(now: int)

  function Next(t: Tables, e: Event): Tables {
    match e
    case Offer(i, h, expiresAt, now) => t.(codes := Offered(t.codes, i, h, expiresAt, now))
    case Pair(who, limited, code, now) => Redeemed(t, who, limited, code, now).0
    case Unlink(i, _) => Tables(Withdrawn(t.codes, i), t.links - {i})
    case Purge(now) => t.(codes := Purged(t.codes, now))
  }

  function Run(es: seq<Event>): Tables {
    if es == [] then EMPTY else Next(Run(es[..|es| - 1]), es[|es| - 1])
  }

  /** This event is an offer of h that the store accepts. */
  predicate Accepts(t: Tables, e: Event, h: CodeHash) {
    e.Offer? && e.hash == h && Free(Withdrawn(t.codes, e.install), h, e.now)
  }

  /** This event redeems h. */
  predicate Redeems(t: Tables, e: Event, h: CodeHash) {
    e.Pair? && !e.limited && e.code == Some(h) && Redeemable(t.codes, h, e.now)
  }

  datatype Ticket = Ticket(install: Install, at: int, uses: nat)

  /** The last accepted offer of h in a run, and how often h was redeemed since. */
  function LastOffer(es: seq<Event>, h: CodeHash): Option<Ticket> {
    if es == [] then None
    else
      var k := |es| - 1;
      var before := LastOffer(es[..k], h);
      if Accepts(Run(es[..k]), es[k], h) then Some(Ticket(es[k].install, es[k].now, 0))
      else if Redeems(Run(es[..k]), es[k], h) && before.Some? then Some(before.value.(uses := before.value.uses + 1))
      else before
  }

  /** An unused row is the last accepted offer of its hash, not redeemed since, with at most ten minutes to live. */
  predicate Backed(t: Tables, h: CodeHash, last: Option<Ticket>) {
    && (last.Some? ==> last.value.uses <= 1)
    && (h in t.codes && !t.codes[h].used ==>
          var c := t.codes[h];
          && last == Some(Ticket(c.install, c.createdAt, 0))
          && c.expiresAt <= c.createdAt + MAX_TTL)
  }

  lemma {:induction false} CodesAreBacked(es: seq<Event>, h: CodeHash)
    ensures Backed(Run(es), h, LastOffer(es, h))
  {
    if es != [] {
      CodesAreBacked(es[..|es| - 1], h);
    }
  }

  /**
   * Each accepted offer is redeemed at most once, and only for the installation whose accepted offer of that
   * hash came last, less than ten minutes after that offer.
   */
  lemma RedeemedOnceByTheLastOfferer(es: seq<Event>, e: Event, h: CodeHash)
    ensures var last := LastOffer(es + [e], h); last.Some? ==> last.value.uses <= 1
    ensures Redeems(Run(es), e, h) ==>
      var last := LastOffer(es, h);
      && last.Some? && last.value.uses == 0
      && last.value.install == Run(es).codes[h].install
      && e.now < last.value.at + MAX_TTL
  {
    CodesAreBacked(es, h);
    CodesAreBacked(es + [e], h);
  }

  predicate OneUnused(codes: map<CodeHash, Code>) {
    forall g, h :: g in codes && h in codes && !codes[g].used && !codes[h].used && codes[g].install == codes[h].install ==> g == h
  }

  /** No Telegram user holds two installations; that no installation holds two users is the table's key. */
  predicate OneInstall(links: map<Install, Link>) {
    forall i, j :: i in links && j in links && links[i].user == links[j].user ==> i == j
  }

  lemma StepKeeps(t: Tables, e: Event)
    requires OneUnused(t.codes) && OneInstall(t.links)
    ensures OneUnused(Next(t, e).codes) && OneInstall(Next(t, e).links)
  {
  }

  /** At every reachable state an installation has at most one unused code, and links pair one with one. */
  lemma {:induction false} EveryRun(es: seq<Event>)
    ensures OneUnused(Run(es).codes) && OneInstall(Run(es).links)
  {
    if es != [] {
      EveryRun(es[..|es| - 1]);
      StepKeeps(Run(es[..|es| - 1]), es[|es| - 1]);
    }
  }

  /** A code on offer never moves: after any step it is the same row, redeemed, or gone. */
  lemma OfferStays(t: Tables, e: Event, h: CodeHash)
    requires Redeemable(t.codes, h, e.now)
    ensures var after := Next(t, e).codes;
      h in after ==> after[h].install == t.codes[h].install
    ensures h !in Next(t, e).codes ==> (e.Offer? || e.Unlink?) && e.install == t.codes[h].install
  {
  }

  /**
   * What an offer leaves: every other row but the installation's own unused ones, and the code itself with at most
   * ten minutes to live, unless another installation has it on offer.
   */
  lemma OfferLeaves(codes: map<CodeHash, Code>, i: Install, h: CodeHash, expiresAt: int, now: int)
    ensures var after := Offered(codes, i, h, expiresAt, now);
      var taken := h in codes && !codes[h].used && now < codes[h].expiresAt && codes[h].install != i;
      && (Free(Withdrawn(codes, i), h, now) <==> !taken)
      && (!taken ==> h in after && after[h] == Code(i, if expiresAt < now + 600_000 then expiresAt else now + 600_000, false, now))
      && forall g :: (g in after && (g != h || taken)) <==>
           g in codes && (g != h || taken) && (codes[g].install != i || codes[g].used)
    ensures forall g :: g != h && g in Offered(codes, i, h, expiresAt, now) ==> Offered(codes, i, h, expiresAt, now)[g] == codes[g]
  {
  }

  /** Unlinking takes the link and the unused codes of that installation, and nothing else. */
  lemma UnlinkLeaves(t: Tables, i: Install, now: int)
    ensures var after := Next(t, Unlink(i, now));
      && (forall o :: o in after.links <==> o in t.links && o != i)
      && (forall o :: o in after.links ==> after.links[o] == t.links[o])
      && (forall g :: g in after.codes <==> g in t.codes && (t.codes[g].install != i || t.codes[g].used))
      && (forall g :: g in after.codes ==> after.codes[g] == t.codes[g])
  {
  }

  /** Purging takes exactly the used codes and those a day past expiry, so nothing that anyone could still redeem. */
  lemma PurgeTakesNoOffer(t: Tables, now: int, h: CodeHash, later: int)
    requires now <= later
    ensures Redeemable(Next(t, Purge(now)).codes, h, later) <==> Redeemable(t.codes, h, later)
    ensures Redeemable(t.codes, h, later) ==> Next(t, Purge(now)).codes[h] == t.codes[h]
    ensures var codes := Next(t, Purge(now)).codes;
      h in codes <==> h in t.codes && !t.codes[h].used && t.codes[h].expiresAt >= now - 86_400_000
    ensures Next(t, Purge(now)).links == t.links
  {
  }

  /** Between the offer and this event nobody redeemed it, its installation neither offered nor unlinked, and it is in time. */
  predicate LeavesOffer(es: seq<Event>, more: seq<Event>, k: nat, i: Install, h: CodeHash, later: int)
    requires k < |more|
  {
    && more[k].now <= later
    && !((more[k].Offer? || more[k].Unlink?) && more[k].install == i)
    && !Redeems(Run(es + more[..k]), more[k], h)
  }

  lemma OneLeavesOffer(t: Tables, e: Event, h: CodeHash, later: int)
    requires Redeemable(t.codes, h, later) && e.now <= later && !Redeems(t, e, h)
    requires !((e.Offer? || e.Unlink?) && e.install == t.codes[h].install)
    ensures h in Next(t, e).codes && Next(t, e).codes[h] == t.codes[h]
  {
  }

  /**
   * An accepted offer can be redeemed for the installation that made it, for as long as it runs, through any events
   * but its redemption and that installation's own next offer or unlinking.
   */
  lemma {:induction false} OfferIsRedeemable(es: seq<Event>, e: Event, more: seq<Event>, later: int)
    requires e.Offer? && Accepts(Run(es), e, e.hash)
    requires e.now <= later < e.now + 600_000 && later < e.expiresAt
    requires forall k :: 0 <= k < |more| ==> LeavesOffer(es + [e], more, k, e.install, e.hash, later)
    ensures var codes := Run(es + [e] + more).codes;
      Redeemable(codes, e.hash, later) && codes[e.hash].install == e.install
  {
    var start := es + [e];
    if more == [] {
      assert start[..|es|] == es && start + more == start;
    } else {
      var k := |more| - 1;
      forall j | 0 <= j < k ensures LeavesOffer(start, more[..k], j, e.install, e.hash, later) {
        assert LeavesOffer(start, more, j, e.install, e.hash, later) && more[..k][..j] == more[..j];
      }
      OfferIsRedeemable(es, e, more[..k], later);
      assert LeavesOffer(start, more, k, e.install, e.hash, later);
      OneLeavesOffer(Run(start + more[..k]), more[k], e.hash, later);
      Appended(start, more);
      hide Run, Next;
    }
  }

  // ---------------------------------------------------------------------------
  // Links
  // ---------------------------------------------------------------------------

  /**
   * Exactly when a pairing succeeds, is refused or fails, and what each leaves: a success links the installation to
   * this user and chat and takes the user's other links; a refusal only spends the code; a failure changes nothing.
   */
  lemma PairedIff(t: Tables, who: Identity, limited: bool, h: CodeHash, now: int)
    ensures var (after, r) := Redeemed(t, who, limited, Some(h), now);
      var offered := !limited && h in t.codes && !t.codes[h].used && now < t.codes[h].expiresAt;
      var owned := offered && t.codes[h].install in t.links && t.links[t.codes[h].install].user != who.user;
      && (r.RateLimited? <==> limited) && (r.PairFailed? <==> !limited && !offered)
      && (r.PairRefused? <==> owned) && (r.Paired? <==> offered && !owned)
      && (offered ==> after.codes == t.codes[h := t.codes[h].(used := true)])
      && (!offered ==> after == t) && (owned ==> after.links == t.links)
      && (r.Paired? ==>
            && r.install == t.codes[h].install
            && r.install in after.links && after.links[r.install] == Link(who.user, who.chat, now)
            && forall o :: o != r.install ==>
                 && (o in after.links <==> o in t.links && t.links[o].user != who.user)
                 && (o in after.links ==> after.links[o] == t.links[o]))
  {
  }

  /** A step either keeps an installation's user or leaves it without one, or links one that had none. */
  lemma LinkStays(t: Tables, e: Event, i: Install)
    requires i in t.links && i in Next(t, e).links
    ensures Next(t, e).links[i].user == t.links[i].user
  {
  }

  ghost predicate UnlinkedAt(es: seq<Event>, more: seq<Event>, i: Install, k: nat)
    requires k <= |more|
  {
    i !in Run(es + more[..k]).links
  }

  /** An installation that passes from one user to another was unlinked in between. */
  lemma {:induction false} NoDirectTakeover(es: seq<Event>, more: seq<Event>, i: Install)
    requires i in Run(es).links && i in Run(es + more).links
    requires Run(es).links[i].user != Run(es + more).links[i].user
    ensures exists k: nat :: 0 < k < |more| && UnlinkedAt(es, more, i, k)
  {
    assert more == [] ==> es + more == es;
    if more != [] {
      var k := |more| - 1;
      Appended(es, more);
      if i in Run(es + more[..k]).links {
        LinkStays(Run(es + more[..k]), more[k], i);
        hide Run, Next;
        NoDirectTakeover(es, more[..k], i);
        var m: nat :| 0 < m < k && UnlinkedAt(es, more[..k], i, m);
        assert more[..k][..m] == more[..m];
        assert UnlinkedAt(es, more, i, m);
      } else {
        NotAtOnce(es, more, i);
      }
    }
  }

  lemma Appended(es: seq<Event>, more: seq<Event>)
    requires more != []
    ensures Run(es + more) == Next(Run(es + more[..|more| - 1]), more[|more| - 1])
  {
    assert (es + more)[..|es + more| - 1] == es + more[..|more| - 1];
  }

  lemma NotAtOnce(es: seq<Event>, more: seq<Event>, i: Install)
    requires more != [] && i in Run(es).links && i !in Run(es + more[..|more| - 1]).links
    ensures exists k: nat :: 0 < k < |more| && UnlinkedAt(es, more, i, k)
  {
    assert es + more[..0] == es;
    assert UnlinkedAt(es, more, i, |more| - 1);
  }

  /**
   * A link appears, or its chat changes, only by a redeemed code: one the installation itself offered less than
   * ten minutes before, redeemed by that user, who then drives that installation alone.
   */
  lemma LinkedOnlyByOwnOffer(es: seq<Event>, e: Event, i: Install)
    requires var t := Run(es); var after := Next(t, e);
      i in after.links && (i !in t.links || t.links[i] != after.links[i])
    ensures e.Pair? && e.code.Some? && Redeems(Run(es), e, e.code.value)
    ensures var last := LastOffer(es, e.code.value);
      last.Some? && last.value.install == i && last.value.uses == 0 && e.now < last.value.at + MAX_TTL
    ensures var after := Next(Run(es), e).links;
      after[i].user == e.who.user && forall o :: o in after && after[o].user == e.who.user ==> o == i
  {
    CodesAreBacked(es, e.code.value);
  }

  /** `displaced` names exactly the installations that lost their link, and no other link changes. */
  lemma DisplacedIsExact(t: Tables, who: Identity, limited: bool, code: Option<CodeHash>, now: int)
    ensures var (after, r) := Redeemed(t, who, limited, code, now);
      if r.Paired? then
        && r.displaced == t.links.Keys - after.links.Keys
        && after.links.Keys == t.links.Keys - r.displaced + {r.install}
        && forall o :: o in after.links && o != r.install ==> o in t.links && after.links[o] == t.links[o]
      else after.links == t.links
  {
  }

  predicate NoOfferOf(es: seq<Event>, more: seq<Event>, h: CodeHash) {
    forall k :: 0 <= k < |more| ==> !Accepts(Run(es + more[..k]), more[k], h)
  }

  ghost predicate Spent(es: seq<Event>, h: CodeHash) {
    LastOffer(es, h).Some? && LastOffer(es, h).value.uses > 0
  }

  lemma SpentStays(es: seq<Event>, e: Event, h: CodeHash)
    requires Spent(es, h) && !Accepts(Run(es), e, h)
    ensures Spent(es + [e], h)
  {
    assert (es + [e])[..|es|] == es;
  }

  lemma SpentIsNotRedeemable(es: seq<Event>, h: CodeHash)
    requires Spent(es, h)
    ensures forall now :: !Redeemable(Run(es).codes, h, now)
  {
    CodesAreBacked(es, h);
  }

  /** A code that was redeemed stays so through any events among which the store accepts no new offer of it. */
  lemma {:induction false} SpentUntilOfferedAgain(es: seq<Event>, more: seq<Event>, h: CodeHash)
    requires Spent(es, h) && NoOfferOf(es, more, h)
    ensures Spent(es + more, h) && forall now :: !Redeemable(Run(es + more).codes, h, now)
  {
    hide Run, Accepts, Redeemable, Spent;
    if more == [] {
      assert es + more == es;
    } else {
      var k := |more| - 1;
      forall j | 0 <= j < k ensures !Accepts(Run(es + more[..k][..j]), more[..k][j], h) {
        assert more[..k][..j] == more[..j] && more[..k][j] == more[j];
      }
      SpentUntilOfferedAgain(es, more[..k], h);
      SpentStays(es + more[..k], more[k], h);
      assert es + more == es + more[..k] + [more[k]];
    }
    SpentIsNotRedeemable(es + more, h);
  }

  /**
   * A code that names another user's installation is spent by the refusal: no link changes, and nobody redeems it
   * afterwards, in any run, until an offer of the same code is accepted again.
   */
  lemma RefusalSpendsTheCode(es: seq<Event>, who: Identity, h: CodeHash, now: int, more: seq<Event>)
    requires Redeemed(Run(es), who, false, Some(h), now).1 == PairRefused
    requires NoOfferOf(es + [Pair(who, false, Some(h), now)], more, h)
    ensures var e := Pair(who, false, Some(h), now);
      && Run(es + [e]).links == Run(es).links
      && forall later :: !Redeems(Run(es + [e] + more), later, h)
  {
    var e := Pair(who, false, Some(h), now);
    var after := es + [e];
    assert after[..|after| - 1] == es;
    CodesAreBacked(es, h);
    assert Spent(after, h);
    SpentUntilOfferedAgain(after, more, h);
    hide Run, Redeemed, Redeemable, NoOfferOf, Spent;
  }
}
