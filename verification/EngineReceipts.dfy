/** Idempotency of intake over every run: a message is answered once, and intents with
    equal hashes inside the window share one answer and one mutation. */
module EngineReceipts {
  import opened Text
  import opened OrderedDict
  import opened Sorting
  import opened Engine
  import opened EngineEffects

  type Receipts = Dict<MessageKey, Receipt>

  ghost predicate IsMatch(r: Receipt, hash: Hash, lower: Time) {
    r.hash == hash && r.at >= lower
  }

  lemma {:induction false} RowIsStored(data: map<MessageKey, Receipt>, keys: seq<MessageKey>, r: Receipt)
    returns (k: MessageKey)
    requires r in RowsOf(data, keys)
    ensures k in keys && k in data && data[k] == r
  {
    if keys[0] in data && data[keys[0]] == r {
      k := keys[0];
    } else {
      k := RowIsStored(data, keys[1..], r);
    }
  }

  lemma {:induction false} StoredIsRow(data: map<MessageKey, Receipt>, keys: seq<MessageKey>, k: MessageKey)
    requires k in keys && k in data
    ensures data[k] in RowsOf(data, keys)
  {
    if k != keys[0] {
      StoredIsRow(data, keys[1..], k);
    }
  }

  ghost predicate NewestMatch(rows: seq<Receipt>, r: Receipt, hash: Hash, lower: Time) {
    r in rows && IsMatch(r, hash, lower) && forall x | x in rows && IsMatch(x, hash, lower) :: x.at <= r.at
  }

  lemma {:induction false} FirstMatchIsNewest(rows: seq<Receipt>, hash: Hash, lower: Time) returns (r: Receipt)
    requires SortedBy(rows, NewerFirst)
    ensures FirstMatch(rows, hash, lower).None? ==> forall x | x in rows :: !IsMatch(x, hash, lower)
    ensures FirstMatch(rows, hash, lower).Some? ==>
              NewestMatch(rows, r, hash, lower) && FirstMatch(rows, hash, lower).value == r.result
  {
    r := Receipt(0, hash, Ambiguous);
    if rows != [] {
      if IsMatch(rows[0], hash, lower) {
        r := rows[0];
        forall x | x in rows ensures x.at <= rows[0].at {
          var j :| 0 <= j < |rows| && rows[j] == x;
          assert j > 0 ==> NewerFirst(rows[0], rows[j]);
        }
      } else {
        assert SortedBy(rows[1..], NewerFirst);
        r := FirstMatchIsNewest(rows[1..], hash, lower);
        assert rows == [rows[0]] + rows[1..];
      }
    }
  }

  /** The replay lookup finds the newest receipt with the hash inside the window, if there is one. */
  lemma FindRecentIsNewest(receipts: Receipts, hash: Hash, now: Time, windowHours: int) returns (k: MessageKey)
    requires receipts.Valid()
    ensures var m := FindRecent(receipts, hash, now, windowHours);
            var lower := now - windowHours * HOUR;
            && (m.None? ==> forall x | x in receipts.data :: !IsMatch(receipts.data[x], hash, lower))
            && (m.Some? ==> && k in receipts.data && IsMatch(receipts.data[k], hash, lower)
                            && receipts.data[k].result == m.value
                            && forall x | x in receipts.data && IsMatch(receipts.data[x], hash, lower) ::
                                 receipts.data[x].at <= receipts.data[k].at)
  {
    hide Sort, RowsOf, FirstMatch;
    var sorted := Sort(Rows(receipts), NewerFirst);
    SortedRows(receipts);
    var r := FirstMatchIsNewest(sorted, hash, now - windowHours * HOUR);
    k := MessageKey("", "", "");
    if FirstMatch(sorted, hash, now - windowHours * HOUR).Some? {
      k := RowIsStored(receipts.data, receipts.keys, r);
    }
  }

  lemma SortedRows(receipts: Receipts)
    requires receipts.Valid()
    ensures SortedBy(Sort(Rows(receipts), NewerFirst), NewerFirst)
    ensures forall k | k in receipts.data :: receipts.data[k] in Sort(Rows(receipts), NewerFirst)
    ensures forall r | r in Sort(Rows(receipts), NewerFirst) :: r in RowsOf(receipts.data, receipts.keys)
  {
    SortKeepsElements(Rows(receipts), NewerFirst);
    SortSorts(Rows(receipts), NewerFirst);
    forall k | k in receipts.data {
      StoredIsRow(receipts.data, receipts.keys, k);
    }
  }

  // ---------- One intake ----------

  /** An intake keeps every stored receipt and stores at most its own, with its clock reading and hash. */
  lemma IntakeReceipts(cfg: Config, s: State, raw: Intent, now: Time)
    requires Numbered(s)
    ensures var (s', outcome) := ProcessIntent(cfg, s, raw, now);
            || (s'.receipts == s.receipts
                && (outcome.Raised? || (&& LiftIntent(raw).Accepted? && raw.key in s.receipts.data && s' == s
                                        && outcome.result == s.receipts.data[raw.key].result)))
            || (&& LiftIntent(raw).Accepted? && outcome.Returned? && raw.key !in s.receipts.data
                && s'.receipts ==
                     s.receipts.Put(raw.key, Receipt(now, IntentHash(LiftIntent(raw).value), outcome.result))
                && var replay := FindRecent(s.receipts, IntentHash(LiftIntent(raw).value), now, cfg.windowHours);
                   replay.Some? ==> outcome.result == replay.value && s' == s.(receipts := s'.receipts))
  {
    if LiftIntent(raw).Accepted? {
      var i := LiftIntent(raw).value;
      if Reached(cfg, s, raw, now).Some? {
        var s2 := BeforeMutation(cfg, s, i);
        ReachedMutates(cfg, s, raw, now);
        var m := MutateEffect(cfg, s2, i, now);
      } else {
        var s1 := Log(s, "intake", ResolverNoMatch, NoSubject);
        assert ResolveEvent(cfg, s1, i) == ResolveEvent(cfg, s, i);
      }
    }
  }

  // ---------- Runs with a clock that does not go back ----------

  ghost predicate Within(a: Time, b: Time, span: int) {
    a - b <= span && b - a <= span
  }

  /** Receipts are no later than the clock, and equal hashes inside the window agree. */
  ghost predicate ReceiptsAgree(cfg: Config, receipts: Receipts, clock: Time) {
    && receipts.Valid()
    && (forall k | k in receipts.data :: receipts.data[k].at <= clock)
    && (forall a, b | a in receipts.data && b in receipts.data ::
          receipts.data[a].hash == receipts.data[b].hash
          && Within(receipts.data[a].at, receipts.data[b].at, cfg.windowHours * HOUR) ==>
            receipts.data[a].result == receipts.data[b].result)
  }

  /** Inside the window of an agreeing table, the lookup returns the shared answer. */
  lemma LookupIsShared(cfg: Config, receipts: Receipts, clock: Time, k: MessageKey, now: Time)
    requires ReceiptsAgree(cfg, receipts, clock) && clock <= now
    requires k in receipts.data && receipts.data[k].at >= now - cfg.windowHours * HOUR
    ensures FindRecent(receipts, receipts.data[k].hash, now, cfg.windowHours) == Some(receipts.data[k].result)
  {
    var hash := receipts.data[k].hash;
    var lower := now - cfg.windowHours * HOUR;
    var x := FindRecentIsNewest(receipts, hash, now, cfg.windowHours);
    assert IsMatch(receipts.data[k], hash, lower);
    assert Within(receipts.data[x].at, receipts.data[k].at, cfg.windowHours * HOUR);
  }

  lemma IntakeKeepsAgreement(cfg: Config, s: State, clock: Time, raw: Intent, now: Time)
    requires Numbered(s) && ReceiptsAgree(cfg, s.receipts, clock) && clock <= now
    ensures ReceiptsAgree(cfg, ProcessIntent(cfg, s, raw, now).0.receipts, now)
  {
    IntakeReceipts(cfg, s, raw, now);
    var (s', outcome) := ProcessIntent(cfg, s, raw, now);
    if s'.receipts != s.receipts {
      var hash := IntentHash(LiftIntent(raw).value);
      forall k | k in s.receipts.data && s.receipts.data[k].hash == hash
                 && Within(s.receipts.data[k].at, now, cfg.windowHours * HOUR)
        ensures s.receipts.data[k].result == outcome.result
      {
        LookupIsShared(cfg, s.receipts, clock, k, now);
      }
      PutKeepsAgreement(cfg, s.receipts, clock, raw.key, Receipt(now, hash, outcome.result));
    }
  }

  lemma PutKeepsAgreement(cfg: Config, receipts: Receipts, clock: Time, key: MessageKey, r: Receipt)
    requires ReceiptsAgree(cfg, receipts, clock) && clock <= r.at && key !in receipts.data
    requires forall k | k in receipts.data && receipts.data[k].hash == r.hash
                        && Within(receipts.data[k].at, r.at, cfg.windowHours * HOUR) ::
               receipts.data[k].result == r.result
    ensures ReceiptsAgree(cfg, receipts.Put(key, r), r.at)
  {
  }

  /** A resend with the hash of a stored receipt inside the window, under a new message id,
      gets the stored answer and changes nothing but the receipts: even when only the
      resend is confirmed, since confirmation is not part of the hash. */
  lemma ResendIsReplayed(cfg: Config, s: State, clock: Time, k: MessageKey, raw: Intent, now: Time)
    requires ReceiptsAgree(cfg, s.receipts, clock) && clock <= now
    requires LiftIntent(raw).Accepted? && raw.key !in s.receipts.data
    requires k in s.receipts.data && s.receipts.data[k].hash == IntentHash(LiftIntent(raw).value)
    requires now - s.receipts.data[k].at <= cfg.windowHours * HOUR
    ensures var (s', outcome) := ProcessIntent(cfg, s, raw, now);
            && outcome == Returned(s.receipts.data[k].result)
            && s' == s.(receipts := s'.receipts)
    ensures LiftIntent(raw.(confirmed := true)).Accepted?
            && IntentHash(LiftIntent(raw.(confirmed := true)).value) == IntentHash(LiftIntent(raw).value)
  {
    LookupIsShared(cfg, s.receipts, clock, k, now);
  }
}
