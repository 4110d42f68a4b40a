/** Which requests for action are passed on, and which resolutions, in terms of what a
    session heard. */
module SessionActions {
  import opened Prelude
  import opened SessionRounds

  /** The input asks for an action: a question, a permission, or a retry with a provider
      action, known by its reason or else its title. */
  predicate AsksFor(i: Input, key: ActionKey, details: Details) {
    match i
    case Asked(kind, requestId, text) => key == RequestKey(kind, requestId) && details == Ask(text)
    case Working(Retry, Some(a)) =>
      && key == ProviderKey(a.provider, if a.reason.Some? then a.reason.value else a.title, a.caption)
      && details == Act(a.provider, a.title, a.message, a.caption, a.link)
    case _ => false
  }

  ghost predicate Asks(i: Input, key: ActionKey) {
    exists details :: AsksFor(i, key, details)
  }

  /** The i-th input makes an action of this key a thing of the past: it ends the round,
      answers the request, or is a busy, or a retry for another action, when the action is
      a provider's. */
  ghost predicate Settles(h: History, i: nat, key: ActionKey)
    requires i < |h|
  {
    || EndsRound(h, i)
    || (key.RequestKey? && h[i].input == Replied(key.kind, key.requestId))
    || (key.ProviderKey? && h[i].input.Working? && h[i].input.status == Busy)
    || (key.ProviderKey? && exists other: ActionKey :: other.ProviderKey? && other != key && Asks(h[i].input, other))
  }

  /** The action was asked for, and nothing has settled it since. */
  ghost predicate Open(h: History, n: nat, key: ActionKey)
    requires n <= |h|
  {
    exists i :: AskedAt(h, i, n, key)
  }

  ghost predicate AskedAt(h: History, i: nat, n: nat, key: ActionKey)
    requires n <= |h|
  {
    i < n && Asks(h[i].input, key) && forall m :: i < m < n ==> !Settles(h, m, key)
  }

  lemma AskedForOne(i: Input, key: ActionKey, details: Details)
    requires AsksFor(i, key, details)
    ensures forall k, d :: AsksFor(i, k, d) ==> k == key && d == details
    ensures forall k :: Asks(i, k) <==> k == key
  {
  }

  lemma RequestStep(h: History, i: nat, key: ActionKey)
    requires i < |h| && key.RequestKey?
    ensures key in After(h, i + 1).pending
        <==> Asks(h[i].input, key) || (key in After(h, i).pending && !Settles(h, i, key))
  {
    if h[i].input.Asked? && key == RequestKey(h[i].input.kind, h[i].input.requestId) {
      assert AsksFor(h[i].input, key, Ask(h[i].input.text));
    }
  }

  lemma ProviderStep(h: History, i: nat, key: ActionKey)
    requires i < |h| && key.ProviderKey?
    ensures key in After(h, i + 1).pending
        <==> Asks(h[i].input, key) || (key in After(h, i).pending && !Settles(h, i, key))
  {
    match h[i].input
    case Working(Retry, Some(a)) =>
      var own := ProviderKeyOf(a);
      AskedForOne(h[i].input, own, DetailsOf(a));
      assert Asks(h[i].input, own);
      if key in After(h, i).pending && own in After(h, i).pending {
        OneProviderActionPending(h, i, key, own);
      }
    case _ =>
  }

  /** An action is pending exactly while it is open. */
  lemma {:induction false} PendingMeansOpen(h: History, n: nat, key: ActionKey)
    requires n <= |h|
    ensures key in After(h, n).pending <==> Open(h, n, key)
  {
    if n > 0 {
      PendingMeansOpen(h, n - 1, key);
      if key.RequestKey? {
        RequestStep(h, n - 1, key);
      } else {
        ProviderStep(h, n - 1, key);
      }
      OpenStep(h, n - 1, key);
    }
  }

  lemma OpenStep(h: History, i: nat, key: ActionKey)
    requires i < |h|
    ensures Open(h, i + 1, key) <==> Asks(h[i].input, key) || (Open(h, i, key) && !Settles(h, i, key))
  {
    if Asks(h[i].input, key) {
      assert AskedAt(h, i, i + 1, key);
    } else if Open(h, i, key) && !Settles(h, i, key) {
      var j :| AskedAt(h, j, i, key);
      assert AskedAt(h, j, i + 1, key);
    }
    if Open(h, i + 1, key) && !Asks(h[i].input, key) {
      var j :| AskedAt(h, j, i + 1, key);
      assert AskedAt(h, j, i, key) && !Settles(h, i, key);
    }
  }

  lemma ReactRequires(s: Session, input: Input, now: int, key: ActionKey, details: Details)
    ensures React(s, input, now).output == Some(Required(key, details))
        <==> AsksFor(input, key, details) && key !in s.pending
  {
  }

  lemma ReactResolves(s: Session, input: Input, now: int, key: ActionKey)
    ensures React(s, input, now).output == Some(Resolved(key))
        <==> key.RequestKey? && input == Replied(key.kind, key.requestId) && key in s.pending
  {
  }

  /** A request for action is passed on exactly when the input asks for it, with the
      details the input gives, and every earlier input that asked for it was settled in
      between. */
  lemma RequestIsPassedOnExactly(h: History, i: nat, key: ActionKey, details: Details)
    requires i < |h|
    ensures Reported(h, i) == Some(Required(key, details))
        <==> && AsksFor(h[i].input, key, details)
             && forall j :: 0 <= j < i && Asks(h[j].input, key) ==> exists m :: j < m < i && Settles(h, m, key)
  {
    ReactRequires(After(h, i), h[i].input, h[i].at, key, details);
    PendingMeansOpen(h, i, key);
    OpenMeansUnsettled(h, i, key);
  }

  lemma OpenMeansUnsettled(h: History, n: nat, key: ActionKey)
    requires n <= |h|
    ensures !Open(h, n, key)
        <==> forall j :: 0 <= j < n && Asks(h[j].input, key) ==> exists m :: j < m < n && Settles(h, m, key)
  {
    if forall j :: 0 <= j < n && Asks(h[j].input, key) ==> exists m :: j < m < n && Settles(h, m, key) {
      forall j ensures !AskedAt(h, j, n, key) {
      }
    }
    if !Open(h, n, key) {
      forall j | 0 <= j < n && Asks(h[j].input, key) ensures exists m :: j < m < n && Settles(h, m, key) {
        assert !AskedAt(h, j, n, key);
      }
    }
  }

  /** A resolution is reported exactly for a reply to a request that was asked for and not
      settled since; never for a provider's action. */
  lemma ResolutionIsReportedExactly(h: History, i: nat, key: ActionKey)
    requires i < |h|
    ensures Reported(h, i) == Some(Resolved(key))
        <==> key.RequestKey? && h[i].input == Replied(key.kind, key.requestId) && Open(h, i, key)
  {
    ReactResolves(After(h, i), h[i].input, h[i].at, key);
    PendingMeansOpen(h, i, key);
  }

  /** While a round runs its status is that of the latest busy or retry. */
  lemma {:induction false} StatusIsTheLatest(h: History, n: nat)
    requires n <= |h| && After(h, n).phase.Running?
    ensures exists a :: 0 <= a < n && IsActive(h, a) && h[a].input.status == After(h, n).phase.status
              && forall m :: a < m < n ==> !IsActive(h, m)
  {
    if IsActive(h, n - 1) {
      assert h[n - 1].input.status == After(h, n).phase.status;
    } else {
      assert After(h, n - 1).phase == After(h, n).phase;
      StatusIsTheLatest(h, n - 1);
    }
  }
}
