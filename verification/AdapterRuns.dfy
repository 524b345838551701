/** The replay cache over whole runs, and the adapter object that keeps it. */
module AdapterRuns {
  import opened Text
  import opened Adapter

  datatype Entry = Entry(message: Message, world: World)

  function After(cfg: Settings, calls: seq<Entry>): Cache
    decreases |calls|
  {
    if calls == [] then EMPTY
    else
      var last := calls[|calls| - 1];
      Send(cfg, After(cfg, calls[..|calls| - 1]), last.message, last.world).0
  }

  // ---------- Any clock ----------

  lemma {:induction false} CacheAgrees(cfg: Settings, calls: seq<Entry>)
    ensures IndexesAgree(After(cfg, calls))
    decreases |calls|
  {
    if calls != [] {
      var rest, last := calls[..|calls| - 1], calls[|calls| - 1];
      CacheAgrees(cfg, rest);
      StepKeepsAgreement(cfg, After(cfg, rest), last.message, last.world);
    }
  }

  lemma SameIndexesAgree(c: Cache, c': Cache)
    requires c'.byAttempt == c.byAttempt && c'.byDedupe == c.byDedupe
    ensures IndexesAgree(c) ==> IndexesAgree(c')
    ensures Extends(c, c')
  {
  }

  lemma StepKeepsAgreement(cfg: Settings, c: Cache, m: Message, w: World)
    requires IndexesAgree(c)
    ensures IndexesAgree(Send(cfg, c, m, w).0) && Extends(c, Send(cfg, c, m, w).0)
  {
    var (c', outcome) := Send(cfg, c, m, w);
    SendStoresAtMost(cfg, c, m, w);
    if c'.byAttempt == c.byAttempt && c'.byDedupe == c.byDedupe {
      SameIndexesAgree(c, c');
    } else {
      FreezeKeepsAgreement(c, outcome.result, m.dedupeKey);
      SameIndexesAgree(Freeze(c, outcome.result, m.dedupeKey), c');
    }
  }

  lemma ExtendsTransitive(a: Cache, b: Cache, c: Cache)
    requires Extends(a, b) && Extends(b, c)
    ensures Extends(a, c)
  {
    forall k | k in a.byDedupe ensures a.byDedupe[k] <= c.byDedupe[k] {
      assert a.byDedupe[k] <= b.byDedupe[k] && b.byDedupe[k] <= c.byDedupe[k];
    }
  }

  /** Stored results are write-once in both indexes. */
  lemma {:induction false} ResultsAreWriteOnce(cfg: Settings, calls: seq<Entry>, more: seq<Entry>)
    ensures Extends(After(cfg, calls), After(cfg, calls + more))
    decreases |more|
  {
    if more == [] {
      assert calls + more == calls;
    } else {
      var rest, last := more[..|more| - 1], more[|more| - 1];
      assert (calls + more)[..|calls + more| - 1] == calls + rest;
      ResultsAreWriteOnce(cfg, calls, rest);
      CacheAgrees(cfg, calls + rest);
      StepKeepsAgreement(cfg, After(cfg, calls + rest), last.message, last.world);
      ExtendsTransitive(After(cfg, calls), After(cfg, calls + rest), After(cfg, calls + more));
    }
  }

  /** An attempt with a stored result never reaches the provider again: every later send
      returns that result, changed only in the replay fields. */
  lemma AnsweredAttemptIsReplayed(cfg: Settings, calls: seq<Entry>, more: seq<Entry>, m: Message, w: World)
    requires m.attemptId in After(cfg, calls).byAttempt
    requires NormalizeCompat(m).Some? && ValidOutbound(NormalizeCompat(m).value)
    ensures var c := After(cfg, calls + more);
            var (c', outcome) := Send(cfg, c, m, w);
            && outcome == Sent(AsReplay(After(cfg, calls).byAttempt[m.attemptId], AttemptIdHit))
            && c' == c.(audit := c'.audit)
  {
    ResultsAreWriteOnce(cfg, calls, more);
  }

  lemma {:induction false} NewestIsInWindow(results: seq<DeliveryResult>, now: Time, windowMs: int)
    ensures var hit := NewestInWindow(results, now, windowMs);
            && (hit.None? <==> forall x | x in results :: AgeMs(now, x.at) > windowMs)
            && (hit.Some? ==>
                  exists i :: 0 <= i < |results| && results[i] == hit.value && AgeMs(now, hit.value.at) <= windowMs
                                && forall j | i < j < |results| :: AgeMs(now, results[j].at) > windowMs)
    decreases |results|
  {
    if results != [] {
      var rest, last := results[..|results| - 1], results[|results| - 1];
      assert results == rest + [last];
      NewestIsInWindow(rest, now, windowMs);
      if AgeMs(now, last.at) <= windowMs {
        assert results[|results| - 1] == last;
      } else {
        forall x | x in results ensures x in rest || x == last {
        }
      }
    }
  }

  /** A result of the key that is still inside the window answers a new attempt: the provider
      is not asked, and the newest such result comes back changed only in the replay fields. */
  lemma WindowAnswersWithoutProvider(cfg: Settings, c: Cache, m: Message, w: World)
    requires NormalizeCompat(m).Some? && ValidOutbound(NormalizeCompat(m).value)
    requires m.attemptId !in c.byAttempt
    requires exists x :: x in Stored(c, m.dedupeKey) && AgeMs(w.lookupAt, x.at) <= cfg.windowMs
    ensures var (c', outcome) := Send(cfg, c, m, w);
            var hit := NewestInWindow(Stored(c, m.dedupeKey), w.lookupAt, cfg.windowMs);
            && hit.Some? && hit.value in Stored(c, m.dedupeKey)
            && outcome == Sent(AsReplay(hit.value, DedupeKeyWindowHit))
            && c' == c.(audit := c'.audit)
  {
    NewestIsInWindow(Stored(c, m.dedupeKey), w.lookupAt, cfg.windowMs);
  }

  /** Only a returned result protects: a send that ends in an exception stores nothing, so
      the same message is sent again. */
  lemma ThrownSendIsSentAgain(cfg: Settings, m: Message, w: World)
    requires NormalizeCompat(m) == Some(m) && ValidOutbound(m) && Preempted(cfg, m, w).None?
    requires w.provider(m.(targetRef := NormalizeTarget(cfg, m).value)).Raises?
    ensures var calls := [Entry(m, w), Entry(m, w)];
            var outbound := m.(targetRef := NormalizeTarget(cfg, m).value);
            After(cfg, calls).sent == [outbound, outbound] && After(cfg, calls).byAttempt == map[]
  {
    var calls := [Entry(m, w), Entry(m, w)];
    assert calls[..1] == [Entry(m, w)] && calls[..1][..0] == [];
    assert After(cfg, calls[..1]) == EMPTY.(sent := [m.(targetRef := NormalizeTarget(cfg, m).value)]);
  }

  // ---------- What reaches the provider ----------

  /** A canonical WhatsApp target, without its prefix. */
  ghost predicate IsBareTarget(cfg: Settings, target: string) {
    exists t :: cfg.isWhatsAppTarget(t) && target == WithoutPrefix(t)
  }

  /** A well-formed message over a supported channel and priority, to a target the channel knows. */
  ghost predicate Permitted(cfg: Settings, m: Message) {
    && ValidOutbound(m) && m.channelHint in cfg.channels
    && (m.priority == "high" ==> cfg.supportsPriority)
    && (m.channelHint == "whatsapp" ==> IsBareTarget(cfg, m.targetRef))
  }

  /** The provider is asked exactly once when the message is well formed, its attempt has no
      stored result, no result of its key is in the window, and neither the capabilities, nor
      the target, nor the runtime mode stand against it; otherwise it is not asked. */
  lemma AskedExactly(cfg: Settings, c: Cache, raw: Message, w: World)
    ensures var c' := Send(cfg, c, raw, w).0;
            var m := NormalizeCompat(raw);
            if && m.Some? && ValidOutbound(m.value) && raw.attemptId !in c.byAttempt
               && (forall x | x in Stored(c, raw.dedupeKey) :: AgeMs(w.lookupAt, x.at) > cfg.windowMs)
               && raw.channelHint in cfg.channels && (raw.priority == "high" ==> cfg.supportsPriority)
               && NormalizeTarget(cfg, raw).Some? && !w.captureOnly
            then c'.sent == c.sent + [m.value.(targetRef := NormalizeTarget(cfg, raw).value)]
                 && Permitted(cfg, c'.sent[|c.sent|])
            else c'.sent == c.sent
  {
    NewestIsInWindow(Stored(c, raw.dedupeKey), w.lookupAt, cfg.windowMs);
    var m := NormalizeCompat(raw);
    if m.Some? {
      assert NormalizeTarget(cfg, m.value) == NormalizeTarget(cfg, raw);
      TargetIsBare(cfg, raw);
    }
  }

  lemma TargetIsBare(cfg: Settings, m: Message)
    ensures m.channelHint == "whatsapp" && NormalizeTarget(cfg, m).Some? ==>
              IsBareTarget(cfg, NormalizeTarget(cfg, m).value)
  {
  }

  lemma {:induction false} OnlyPermittedIsSent(cfg: Settings, calls: seq<Entry>)
    ensures forall m | m in After(cfg, calls).sent :: Permitted(cfg, m)
    decreases |calls|
  {
    if calls != [] {
      var rest, last := calls[..|calls| - 1], calls[|calls| - 1];
      OnlyPermittedIsSent(cfg, rest);
      AskedExactly(cfg, After(cfg, rest), last.message, last.world);
    }
  }

  /** This call asks the provider. */
  predicate Asks(cfg: Settings, c: Cache, e: Entry) {
    Send(cfg, c, e.message, e.world).0.sent != c.sent
  }

  /** An answer that is returned is stored under its attempt and under its key. */
  lemma AnswerIsStored(cfg: Settings, c: Cache, e: Entry)
    requires IndexesAgree(c) && Asks(cfg, c, e) && Send(cfg, c, e.message, e.world).1.Sent?
    ensures var (c', outcome) := Send(cfg, c, e.message, e.world);
            && e.message.attemptId in c'.byAttempt && outcome.result.at == e.world.resultAt
            && e.message.dedupeKey in c'.byDedupe && outcome.result in c'.byDedupe[e.message.dedupeKey]
  {
    var (c', outcome) := Send(cfg, c, e.message, e.world);
    var m := NormalizeCompat(e.message).value;
    SendStoresAtMost(cfg, c, e.message, e.world);
    AskStoresAtMost(cfg, c, m, NormalizeTarget(cfg, m).value, e.world);
    assert c'.byDedupe[e.message.dedupeKey][|Stored(c, e.message.dedupeKey)|] == outcome.result;
  }

  lemma StoredIsNotAsked(cfg: Settings, c: Cache, e: Entry, r: DeliveryResult)
    requires Asks(cfg, c, e)
    ensures e.message.attemptId !in c.byAttempt
    ensures r in Stored(c, e.message.dedupeKey) ==> AgeMs(e.world.lookupAt, r.at) > cfg.windowMs
  {
    AskedExactly(cfg, c, e.message, e.world);
  }

  /** Over any run and whatever the clock does: of two calls that both reached the provider,
      for one attempt or for one dedupe key inside the window, the earlier ended in an exception. */
  lemma AskedAgainOnlyAfterThrow(cfg: Settings, calls: seq<Entry>, i: nat, j: nat)
    requires i < j < |calls|
    requires Asks(cfg, After(cfg, calls[..i]), calls[i]) && Asks(cfg, After(cfg, calls[..j]), calls[j])
    requires || calls[i].message.attemptId == calls[j].message.attemptId
             || (&& calls[i].message.dedupeKey == calls[j].message.dedupeKey
                 && AgeMs(calls[j].world.lookupAt, calls[i].world.resultAt) <= cfg.windowMs)
    ensures Send(cfg, After(cfg, calls[..i]), calls[i].message, calls[i].world).1.Threw?
  {
    hide Send, IndexesAgree, Asks;
    var c, first := After(cfg, calls[..i]), calls[i];
    var outcome := Send(cfg, c, first.message, first.world).1;
    if outcome.Sent? {
      CacheAgrees(cfg, calls[..i]);
      AnswerIsStored(cfg, c, first);
      assert calls[..i + 1][..i] == calls[..i] && calls[..i + 1] + calls[i + 1..j] == calls[..j];
      ResultsAreWriteOnce(cfg, calls[..i + 1], calls[i + 1..j]);
      StoredIsNotAsked(cfg, After(cfg, calls[..j]), calls[j], outcome.result);
    }
  }

  // ---------- A clock that does not go back ----------

  ghost predicate Forward(calls: seq<Entry>, clock: Time)
    decreases |calls|
  {
    calls == [] ||
    var w := calls[|calls| - 1].world;
    w.lookupAt <= w.resultAt <= clock && Forward(calls[..|calls| - 1], w.lookupAt)
  }

  /** Results of one key are in time order, each more than the window after those before it. */
  ghost predicate Spaced(c: Cache, windowMs: int, clock: Time) {
    && (forall k, x | k in c.byDedupe && x in c.byDedupe[k] :: x.at <= clock)
    && (forall k, i, j | k in c.byDedupe && 0 <= i < j < |c.byDedupe[k]| ::
          && c.byDedupe[k][i].at <= c.byDedupe[k][j].at
          && AgeMs(c.byDedupe[k][j].at, c.byDedupe[k][i].at) > windowMs)
  }

  lemma AgeGrows(a: Time, b: Time, at: Time)
    requires a <= b
    ensures AgeMs(a, at) <= AgeMs(b, at)
  {
  }

  lemma FreezeKeepsSpacing(c: Cache, r: DeliveryResult, key: string, windowMs: int, lookupAt: Time)
    requires Spaced(c, windowMs, lookupAt) && lookupAt <= r.at
    requires forall x | x in Stored(c, key) :: AgeMs(lookupAt, x.at) > windowMs
    ensures Spaced(Freeze(c, r, key), windowMs, r.at)
  {
    var c' := Freeze(c, r, key);
    forall k, x | k in c'.byDedupe && x in c'.byDedupe[k] ensures x.at <= r.at {
      var i :| 0 <= i < |c'.byDedupe[k]| && c'.byDedupe[k][i] == x;
      FrozenEntry(c, r, key, k, i);
      if k in c.byDedupe && i < |c.byDedupe[k]| {
        assert x in c.byDedupe[k];
      }
    }
    forall k, i, j | k in c'.byDedupe && 0 <= i < j < |c'.byDedupe[k]|
      ensures c'.byDedupe[k][i].at <= c'.byDedupe[k][j].at
      ensures AgeMs(c'.byDedupe[k][j].at, c'.byDedupe[k][i].at) > windowMs
    {
      FrozenEntry(c, r, key, k, i);
      FrozenEntry(c, r, key, k, j);
      assert k in c.byDedupe && c'.byDedupe[k][i] in c.byDedupe[k];
      AgeGrows(lookupAt, r.at, c'.byDedupe[k][i].at);
    }
  }

  /** With a clock that does not go back, two results returned for one dedupe key without
      being replayed are more than the window apart: at most one per window. */
  lemma {:induction false} AtMostOncePerWindow(cfg: Settings, calls: seq<Entry>, clock: Time)
    requires Forward(calls, clock)
    ensures Spaced(After(cfg, calls), cfg.windowMs, clock)
    decreases |calls|
  {
    if calls != [] {
      var rest, last := calls[..|calls| - 1], calls[|calls| - 1];
      var c, m, w := After(cfg, rest), last.message, last.world;
      AtMostOncePerWindow(cfg, rest, w.lookupAt);
      SendStoresAtMost(cfg, c, m, w);
      var (c', outcome) := Send(cfg, c, m, w);
      if outcome.Sent? && !outcome.result.replayed {
        NewestIsInWindow(Stored(c, m.dedupeKey), w.lookupAt, cfg.windowMs);
        FreezeKeepsSpacing(c, outcome.result, m.dedupeKey, cfg.windowMs, w.lookupAt);
      }
    }
  }

  lemma {:induction false} InTimeOrderLastHits(stored: seq<DeliveryResult>, now: Time, windowMs: int)
    requires forall i, j | 0 <= i < j < |stored| :: stored[i].at <= stored[j].at
    ensures var hit := NewestInWindow(stored, now, windowMs);
            && (hit.Some? ==> stored != [] && hit.value == stored[|stored| - 1])
            && (hit.None? <==> stored == [] || AgeMs(now, stored[|stored| - 1].at) > windowMs)
    decreases |stored|
  {
    if |stored| > 1 {
      InTimeOrderLastHits(stored[..|stored| - 1], now, windowMs);
      AgeOlder(now, stored[|stored| - 2].at, stored[|stored| - 1].at);
    }
  }

  lemma AgeOlder(now: Time, a: Time, b: Time)
    requires a <= b
    ensures AgeMs(now, b) <= AgeMs(now, a)
  {
  }

  /** With such a clock the replayed result is the newest result of its key altogether. */
  lemma WindowHitIsNewest(cfg: Settings, calls: seq<Entry>, key: string, now: Time)
    requires Forward(calls, now)
    ensures var stored := Stored(After(cfg, calls), key);
            var hit := NewestInWindow(stored, now, cfg.windowMs);
            && (hit.Some? ==> stored != [] && hit.value == stored[|stored| - 1])
            && (hit.None? <==> stored == [] || AgeMs(now, stored[|stored| - 1].at) > cfg.windowMs)
  {
    AtMostOncePerWindow(cfg, calls, now);
    var stored := Stored(After(cfg, calls), key);
    assert key in After(cfg, calls).byDedupe ==> stored == After(cfg, calls).byDedupe[key];
    InTimeOrderLastHits(stored, now, cfg.windowMs);
  }

  // ---------- The adapter object ----------

  class OpenClawGatewayAdapter {
    const cfg: Settings
    var canonicalByAttemptId: map<string, DeliveryResult>
    var canonicalByDedupe: map<string, seq<DeliveryResult>>
    var auditEvents: seq<AuditEvent>
    ghost var sent: seq<Message>

    ghost function View(): Cache
      reads this
    {
      Cache(canonicalByAttemptId, canonicalByDedupe, auditEvents, sent)
    }

    constructor (cfg: Settings)
      ensures this.cfg == cfg && View() == EMPTY
    {
      this.cfg := cfg;
      canonicalByAttemptId, canonicalByDedupe, auditEvents, sent := map[], map[], [], [];
    }

    method AppendAudit(kind: string, result: DeliveryResult, dedupeKey: string)
      modifies this`auditEvents
      ensures View() == Audited(old(View()), kind, result, dedupeKey)
    {
      auditEvents := auditEvents + [AuditEvent(kind, result.attemptId, dedupeKey, result.replaySource)];
    }

    method FreezeResult(result: DeliveryResult, dedupeKey: string)
      modifies this`canonicalByAttemptId, this`canonicalByDedupe
      ensures View() == Freeze(old(View()), result, dedupeKey)
    {
      canonicalByAttemptId := canonicalByAttemptId[result.attemptId := result];
      var list := if dedupeKey in canonicalByDedupe then canonicalByDedupe[dedupeKey] else [];
      canonicalByDedupe := canonicalByDedupe[dedupeKey := list + [result]];
    }

    method ReplayByDedupeKeyWindow(m: Message, now: Time) returns (hit: Option<DeliveryResult>)
      ensures hit == NewestInWindow(Stored(View(), m.dedupeKey), now, cfg.windowMs)
    {
      if m.dedupeKey !in canonicalByDedupe {
        return None;
      }
      var candidates := canonicalByDedupe[m.dedupeKey];
      var n := |candidates|;
      assert candidates[..n] == candidates;
      while n > 0
        invariant 0 <= n <= |candidates|
        invariant NewestInWindow(candidates, now, cfg.windowMs) == NewestInWindow(candidates[..n], now, cfg.windowMs)
      {
        assert candidates[..n][..n - 1] == candidates[..n - 1];
        if AgeMs(now, candidates[n - 1].at) <= cfg.windowMs {
          return Some(candidates[n - 1]);
        }
        n := n - 1;
      }
      return None;
    }

    method SendMessage(raw: Message, w: World) returns (outcome: SendOutcome)
      modifies this
      ensures (View(), outcome) == Send(cfg, old(View()), raw, w)
    {
      var normalized := NormalizeCompat(raw);
      if normalized.None? || !ValidOutbound(normalized.value) {
        return Threw(InvalidOutbound);
      }
      var m := normalized.value;
      if m.attemptId in canonicalByAttemptId {
        var replay := AsReplay(canonicalByAttemptId[m.attemptId], AttemptIdHit);
        AppendAudit("replay_returned", replay, m.dedupeKey);
        return Sent(replay);
      }
      var hit := ReplayByDedupeKeyWindow(m, w.lookupAt);
      if hit.Some? {
        var replay := AsReplay(hit.value, DedupeKeyWindowHit);
        AppendAudit("dedupe_hit", replay, m.dedupeKey);
        return Sent(replay);
      }
      var block := CapabilityBlock(cfg, m, w.resultAt);
      if block.Some? {
        FreezeResult(block.value, m.dedupeKey);
        AppendAudit("capability_blocked", block.value, m.dedupeKey);
        return Sent(block.value);
      }
      var target := NormalizeTarget(cfg, m);
      if target.None? {
        var blocked := BlockedResult(m, FailedCapabilityUnsupported, "target alias unresolved", ConfigClass,
                                     w.resultAt);
        FreezeResult(blocked, m.dedupeKey);
        AppendAudit("capability_blocked", blocked, m.dedupeKey);
        return Sent(blocked);
      }
      if w.captureOnly {
        var blocked := BlockedResult(m, CaptureOnlyBlocked, "capture_only runtime mode", PolicyClass, w.resultAt);
        FreezeResult(blocked, m.dedupeKey);
        AppendAudit("capture_only_blocked", blocked, m.dedupeKey);
        return Sent(blocked);
      }
      var reply := w.provider(m.(targetRef := target.value));
      sent := sent + [m.(targetRef := target.value)];
      if reply.Raises? {
        return Threw(ProviderRaised);
      }
      var mapping := MapResponse(cfg, m, reply.response, w.resultAt);
      if mapping.Refused? {
        return Threw(mapping.failure);
      }
      FreezeResult(mapping.result, m.dedupeKey);
      AppendAudit("send_result", mapping.result, m.dedupeKey);
      return Sent(mapping.result);
    }
  }
}
