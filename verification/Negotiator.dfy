/** Creating a swap over unreliable channels: which failures are definite, which replies can be
    believed, and when only a lookup of the quote settles what happened. */
module Negotiator {
  import opened Durability
  import opened Messages

  /** How one attempt over one channel ended. */
  datatype Attempt = NotSent | Uncertain | Replied(reply: Message)

  /** One request as it was carried, and how that ended. */
  datatype Carried = Carried(request: Message, attempt: Attempt)

  /** What happens to one request: it never leaves, it disappears on the way there or back, or it is
      served. */
  datatype Fate = Lost | Swallowed(admits: bool) | Served(service: Service)

  datatype Service = Serve | Hold | Refuse

  datatype World = World(
    fate: nat -> Fate,
    late: nat -> bool,
    cut: nat -> bool)

  /** A provider that creates at most one swap for the quote, always with the same acceptance, and
      answers a repeated creation with it. A request that went unanswered, or was held, may be
      admitted at any later time. */
  class Provider {
    const world: World
    const acceptance: Accept
    var clock: nat
    var created: bool
    /** Creation requests that may still be admitted. */
    var inFlight: nat
    ghost var Lookups: nat
    /** Every request carried to this provider, in order. */
    ghost var History: seq<Carried>

    constructor (world: World, acceptance: Accept)
      ensures this.world == world && this.acceptance == acceptance
      ensures !created && inFlight == 0 && Lookups == 0 && History == []
    {
      this.world := world;
      this.acceptance := acceptance;
      clock := 0;
      created := false;
      inFlight := 0;
      Lookups := 0;
      History := [];
    }

    /** Nothing was created for the quote and nothing that reached the provider ever will be. */
    predicate Nothing()
      reads this
    {
      !created && inFlight == 0
    }

    method Pass()
      modifies this`clock, this`created
      ensures clock == old(clock) + 1
      ensures old(created) ==> created
      ensures inFlight == 0 ==> created == old(created)
    {
      if inFlight > 0 && world.late(clock) {
        created := true;
      }
      clock := clock + 1;
    }

    /** A creation request for the quote. */
    method Create(request: Request) returns (a: Attempt)
      modifies this
      ensures clock == old(clock) + 1 && Lookups == old(Lookups) && History == old(History)
      ensures old(created) ==> created
      ensures inFlight >= old(inFlight)
      ensures a.NotSent? ==> inFlight == old(inFlight) && (old(inFlight) == 0 ==> created == old(created))
      ensures a.Replied? ==> a.reply.SwapAccept? || a.reply.Reject?
      ensures a.Replied? && a.reply.SwapAccept? ==> a.reply.accept == acceptance && created
      ensures a.Replied? && a.reply.Reject? ==>
                && a.reply.rejectedQuote == Some(request.quoteId)
                && (a.reply.code == Some(Pending) || !created)
                && (a.reply.code != Some(Pending) && old(inFlight) == 0 ==> inFlight == 0)
    {
      Pass();
      match world.fate(clock - 1) {
        case Lost =>
          a := NotSent;
        case Swallowed(admits) =>
          inFlight := inFlight + 1;
          created := created || admits;
          a := Uncertain;
        case Served(Serve) =>
          created := true;
          a := Replied(SwapAccept(acceptance));
        case Served(Hold) =>
          inFlight := inFlight + 1;
          a := Replied(Reject(None, Some(request.quoteId), Some(Pending)));
        case Served(Refuse) =>
          a := Replied(if created then SwapAccept(acceptance)
                       else Reject(None, Some(request.quoteId), Some(Refused)));
      }
    }

    /** A status query for the quote. It creates nothing, and it may be refused whatever exists. */
    method Look(requestId: Id, quoteId: Id) returns (a: Attempt)
      modifies this
      ensures clock == old(clock) + 1 && Lookups == old(Lookups) + 1 && History == old(History)
      ensures old(created) ==> created
      ensures inFlight == old(inFlight) && (old(inFlight) == 0 ==> created == old(created))
      ensures a.Replied? ==> a.reply.StatusSnapshot? || a.reply.Reject?
      ensures a.Replied? && a.reply.StatusSnapshot? ==> a.reply.accept == acceptance && created
      ensures a.Replied? ==> a.reply.requestId == Some(requestId)
    {
      Pass();
      Lookups := Lookups + 1;
      match world.fate(clock - 1) {
        case Lost =>
          a := NotSent;
        case Swallowed(_) =>
          a := Uncertain;
        case Served(Serve) =>
          a := Replied(if created then StatusSnapshot(Some(requestId), acceptance)
                       else Reject(Some(requestId), None, Some(NotFound)));
        case Served(Hold) =>
          a := Replied(Reject(Some(requestId), None, Some(Pending)));
        case Served(Refuse) =>
          a := Replied(Reject(Some(requestId), None, Some(Refused)));
      }
    }

    method Carry(request: Message) returns (a: Attempt)
      requires request.SwapRequest? || IsLookup(request)
      modifies this
      ensures clock == old(clock) + 1
      ensures Lookups == old(Lookups) + if request.SwapRequest? then 0 else 1
      ensures History == old(History) + [Carried(request, a)]
      ensures old(created) ==> created
      ensures inFlight >= old(inFlight)
      ensures a.NotSent? || IsLookup(request) ==>
                inFlight == old(inFlight) && (old(inFlight) == 0 ==> created == old(created))
      ensures a.Replied? ==> Believable(request, a.reply)
      ensures a.Replied? && a.reply.SwapAccept? ==> a.reply.accept == acceptance && created
      ensures a.Replied? && a.reply.StatusSnapshot? ==> a.reply.accept == acceptance && created
      ensures a.Replied? && a.reply.Reject? && a.reply.code != Some(Pending) ==>
                old(Nothing()) ==> Nothing()
    {
      if request.SwapRequest? {
        a := Create(request.request);
      } else {
        a := Look(request.requestId.value, request.ofQuote.value);
      }
      if a.Replied? && !Believable(request, a.reply) {
        a := Uncertain;
      }
      History := History + [Carried(request, a)];
    }
  }

  predicate IsLookup(request: Message) {
    request.StatusRequest? && request.requestId.Some? && request.ofQuote.Some?
  }

  /** What a channel lets through: a reply of the expected kind, or a rejection, for this request. */
  predicate Believable(request: Message, reply: Message) {
    if request.SwapRequest?
    then || (reply.SwapAccept? && reply.accept.quoteId == request.request.quoteId)
         || (reply.Reject? && reply.rejectedQuote == Some(request.request.quoteId))
    else && IsLookup(request)
         && (reply.StatusSnapshot? || reply.Reject?) && reply.requestId == request.requestId
         && (reply.StatusSnapshot? ==> Some(reply.accept.quoteId) == request.ofQuote)
  }

  /** A status query for the quote, answered by a refusal that is neither "not found" nor "pending". */
  predicate RefusedLookup(c: Carried, quoteId: Id) {
    && IsLookup(c.request) && c.request.ofQuote == Some(quoteId)
    && c.attempt.Replied? && c.attempt.reply.Reject? && c.attempt.reply.requestId == c.request.requestId
    && c.attempt.reply.code != Some(NotFound) && c.attempt.reply.code != Some(Pending)
  }

  /** A status query for the quote, answered with this acceptance. */
  predicate FoundByLookup(c: Carried, quoteId: Id, accept: Accept) {
    && IsLookup(c.request) && c.request.ofQuote == Some(quoteId)
    && c.attempt == Replied(StatusSnapshot(c.request.requestId, accept))
  }

  /** The outcome of an exchange over both channels. */
  datatype Exchanged = Answer(reply: Message, uncertain: bool) | NothingSent | MaybeSent

  /** The outcome of creating or recovering a swap. A refusal reported without a lookup is definite. */
  datatype Creation = Created(accept: Accept) | Declined | Unsent | Unresolved

  ghost predicate AllNotSent(attempts: seq<Attempt>) {
    forall a | a in attempts :: a.NotSent?
  }

  lemma FailuresGrow(failures: seq<Attempt>, a: Attempt)
    ensures AllNotSent(failures + [a]) <==> AllNotSent(failures) && a.NotSent?
  {
    assert a in failures + [a];
    assert forall x | x in failures :: x in failures + [a];
  }

  /** Nothing this exchange did can still lead to a swap: it only looked, everything it sent stayed
      here, or the one request that arrived was declined. */
  predicate Harmless(request: Message, reply: Option<Message>, uncertain: bool) {
    || IsLookup(request)
    || (!uncertain && (reply.None? || (reply.value.Reject? && reply.value.code != Some(Pending))))
  }

  /** The attempts that failed and the reply that ended them, as the provider's history holds them. */
  ghost function Told(request: Message, failures: seq<Attempt>, reply: Option<Message>): seq<Carried> {
    seq(|failures|, i requires 0 <= i < |failures| => Carried(request, failures[i]))
    + if reply.Some? then [Carried(request, Replied(reply.value))] else []
  }

  lemma ToldMore(request: Message, failures: seq<Attempt>, a: Attempt)
    ensures Told(request, failures + [a], None) == Told(request, failures, None) + [Carried(request, a)]
    ensures a.Replied? ==>
              Told(request, failures, Some(a.reply)) == Told(request, failures, None) + [Carried(request, a)]
  {
  }

  /** The failed attempts and the reply are what the provider's history gained; `uncertain` says whether
      one of the failed ones may have arrived; a reply is one a channel lets through, and what it grants
      is the provider's own. */
  ghost predicate Attempted(provider: Provider, request: Message, reply: Option<Message>, uncertain: bool,
                            failures: seq<Attempt>, clock: nat, lookups: nat, history: seq<Carried>)
    reads provider
  {
    var carried := |failures| + if reply.Some? then 1 else 0;
    && provider.clock == clock + carried
    && provider.History == history + Told(request, failures, reply)
    && provider.Lookups == lookups + (if request.SwapRequest? then 0 else carried)
    && (forall a | a in failures :: !a.Replied?)
    && (uncertain <==> !AllNotSent(failures))
    && (reply.Some? ==>
          && Believable(request, reply.value)
          && (reply.value.SwapAccept? || reply.value.StatusSnapshot? ==>
                reply.value.accept == provider.acceptance && provider.created))
  }

  class Negotiator {
    const provider: Provider
    const preferred: bool
    const fallback: bool
    var preferredUnavailable: bool

    constructor (provider: Provider, preferred: bool, fallback: bool)
      ensures this.provider == provider && !preferredUnavailable
      ensures this.preferred == preferred && this.fallback == fallback
    {
      this.provider := provider;
      this.preferred := preferred;
      this.fallback := fallback;
      preferredUnavailable := false;
    }

    /** Two tries over the preferred channel, none once it was found unreachable. `failures` are the
        attempts that brought no reply. */
    method TryPreferred(request: Message)
      returns (reply: Option<Message>, uncertain: bool, ghost failures: seq<Attempt>)
      requires request.SwapRequest? || IsLookup(request)
      modifies this, provider
      ensures Attempted(provider, request, reply, uncertain, failures, old(provider.clock), old(provider.Lookups),
                        old(provider.History))
      ensures |failures| <= 2
      ensures old(provider.created) ==> provider.created
      ensures old(provider.Nothing()) && Harmless(request, reply, uncertain) ==> provider.Nothing()
      ensures preferredUnavailable <==> old(preferredUnavailable) || Attempt.NotSent in failures
      ensures !preferred || old(preferredUnavailable) ==> reply.None? && failures == []
      ensures preferred && !old(preferredUnavailable) && reply.None? ==>
                |failures| == 2 || (|failures| == 1 && failures[0].NotSent?)
    {
      reply, uncertain, failures := None, false, [];
      if !preferred {
        return;
      }
      for i := 0 to 2
        invariant |failures| == i
        invariant Attempted(provider, request, None, uncertain, failures, old(provider.clock), old(provider.Lookups),
                        old(provider.History))
        invariant old(provider.created) ==> provider.created
        invariant old(provider.Nothing()) && Harmless(request, None, uncertain) ==> provider.Nothing()
        invariant preferredUnavailable <==> old(preferredUnavailable) || Attempt.NotSent in failures
        invariant i == 0 ==> failures == []
        invariant i > 0 ==> !old(preferredUnavailable)
      {
        if preferredUnavailable {
          return;
        }
        var a := provider.Carry(request);
        ToldMore(request, failures, a);
        match a {
          case Replied(message) =>
            reply := Some(message);
            return;
          case NotSent =>
            preferredUnavailable := true;
          case Uncertain =>
            uncertain := true;
        }
        FailuresGrow(failures, a);
        failures := failures + [a];
      }
    }

    /** At most two attempts over the preferred channel and one over the other. */
    method Exchange(request: Message) returns (r: Exchanged, ghost failures: seq<Attempt>)
      requires request.SwapRequest? || IsLookup(request)
      modifies this, provider
      ensures r.NothingSent? <==> !r.Answer? && AllNotSent(failures)
      ensures r.Answer? ==> (r.uncertain <==> !AllNotSent(failures))
      ensures var reply := if r.Answer? then Some(r.reply) else None;
              Attempted(provider, request, reply, !AllNotSent(failures), failures, old(provider.clock),
                        old(provider.Lookups), old(provider.History))
              && (old(provider.Nothing()) && Harmless(request, reply, !AllNotSent(failures)) ==>
                    provider.Nothing())
      ensures |failures| <= 3
      ensures old(provider.created) ==> provider.created
      ensures fallback || (preferred && !old(preferredUnavailable)) ==> provider.clock > old(provider.clock)
      ensures !r.Answer? && preferred && !old(preferredUnavailable) ==>
                |failures| >= (if failures[0].NotSent? then 1 else 2) + (if fallback then 1 else 0)
    {
      var reply, uncertain;
      reply, uncertain, failures := TryPreferred(request);
      if reply.Some? {
        return Answer(reply.value, uncertain), failures;
      }
      if fallback {
        var a := provider.Carry(request);
        ToldMore(request, failures, a);
        if a.Replied? {
          return Answer(a.reply, uncertain), failures;
        }
        FailuresGrow(failures, a);
        failures := failures + [a];
        uncertain := uncertain || a.Uncertain?;
      }
      return if uncertain then MaybeSent else NothingSent, failures;
    }

    /** Look the creation up by its quote until it is found, the query itself is refused, or the
        window has passed. "Not found" and "pending" are not believed before that. */
    method Recover(quoteId: Id, window: nat) returns (r: Creation)
      modifies this, provider
      ensures r.Unresolved? ==>
                || provider.clock >= old(provider.clock) + window
                || (|provider.History| > |old(provider.History)|
                    && RefusedLookup(provider.History[|provider.History| - 1], quoteId))
      ensures r.Created? ==>
                |provider.History| > |old(provider.History)|
                && FoundByLookup(provider.History[|provider.History| - 1], quoteId, r.accept)
      ensures r.Created? || r.Unresolved?
      ensures r.Created? ==> r.accept == provider.acceptance && provider.created
                             && provider.acceptance.quoteId == quoteId
      ensures old(provider.Nothing()) ==> provider.Nothing()
      ensures provider.Lookups >= old(provider.Lookups)
      ensures provider.Lookups > old(provider.Lookups) || !(preferred || fallback)
    {
      var deadline := provider.clock + window;
      ghost var first := true;
      while true
        invariant old(provider.Nothing()) ==> provider.Nothing()
        invariant first ==> provider.Lookups == old(provider.Lookups)
        invariant !first ==> provider.Lookups > old(provider.Lookups) || !(preferred || fallback)
        invariant provider.Lookups >= old(provider.Lookups)
        invariant |provider.History| >= |old(provider.History)|
        decreases if deadline >= provider.clock then deadline - provider.clock + 1 else 0
      {
        preferredUnavailable := false;
        ghost var lookups := provider.Lookups;
        var requestId := provider.clock;
        var reply, attempts := Exchange(StatusRequest(Some(requestId), None, Some(quoteId)));
        first := false;
        if reply.Answer? && !provider.world.cut(requestId) {
          if reply.reply.StatusSnapshot? && reply.reply.requestId == Some(requestId)
             && reply.reply.accept.quoteId == quoteId
          {
            return Created(reply.reply.accept);
          }
          if reply.reply.Reject? && reply.reply.requestId == Some(requestId)
             && reply.reply.code != Some(NotFound) && reply.reply.code != Some(Pending)
          {
            return Unresolved;
          }
        }
        provider.Pass();
        if provider.clock >= deadline {
          return Unresolved;
        }
      }
    }

    /** Ask for the swap; when an attempt may have gone through unanswered, or the provider is still
        deciding, find out by the quote instead of believing a refusal. */
    method Create(request: Request, window: nat) returns (r: Creation)
      requires preferred || fallback
      modifies this, provider
      ensures r.Created? ==> r.accept == provider.acceptance && provider.created
                             && r.accept.quoteId == request.quoteId
      ensures old(provider.Nothing()) && (r.Declined? || r.Unsent?) ==> provider.Nothing()
      ensures !r.Created? && provider.Lookups == old(provider.Lookups) ==>
                old(provider.Nothing()) ==> provider.Nothing()
    {
      var reply, attempts := Exchange(SwapRequest(request));
      if reply.NothingSent? {
        return Unsent;
      }
      if reply.Answer? && reply.reply.SwapAccept? {
        var accept := reply.reply.accept;
        return if accept.quoteId == request.quoteId then Created(accept) else Unresolved;
      }
      if reply.Answer? && !reply.uncertain && reply.reply.code != Some(Pending) {
        return Declined;
      }
      r := Recover(request.quoteId, window);
    }

    /** The same request once more, word for word, for a swap some earlier process may have asked for:
        whatever comes back short of an acceptance, look it up. */
    method RecoverCreation(request: Request, window: nat) returns (r: Creation)
      requires preferred || fallback
      modifies this, provider
      ensures r.Created? || r.Unresolved?
      ensures r.Created? ==> r.accept == provider.acceptance && provider.created
                             && r.accept.quoteId == request.quoteId
    {
      var reply, attempts := Exchange(SwapRequest(request));
      if reply.Answer? && reply.reply.SwapAccept? && reply.reply.accept.quoteId == request.quoteId {
        return Created(reply.reply.accept);
      }
      r := Recover(request.quoteId, window);
    }
  }
}
