/** The queries of the SQLite store, which compare texts, against the queries of the
    in-memory store, which compare moments. Rows are scanned in an arbitrary order. */
module StoreQueries {
  import opened Text
  import opened OrderedDict
  import opened Sorting
  import opened Engine
  import opened EngineReceipts
  import opened EngineTheorems
  import opened Timestamps

  /** How times are written, and the times that can be written. */
  datatype Clock = Clock(text: Time -> string, times: Time -> bool) {
    ghost predicate Valid() {
      KeepsOrder(text, times)
    }
  }

  // ---------- Due reminders ----------

  /** The columns of a reminder row that the due query reads. */
  datatype ReminderRow = ReminderRow(id: string, status: Status, triggerText: string, nextText: Option<string>)

  /** The table, with its rows in the order in which a scan meets them. */
  type ReminderTable = Dict<Key, ReminderRow>

  /** COALESCE(next_attempt_at_utc, trigger_at_utc). */
  function DueText(row: ReminderRow): string {
    if row.nextText.Some? then row.nextText.value else row.triggerText
  }

  function SelectedBy(table: ReminderTable, nowText: string): Key -> bool {
    k => k in table.data && IsSchedulable(table.data[k].status) && LessOrEqual(DueText(table.data[k]), nowText)
  }

  /** ORDER BY trigger_at_utc ASC, reminder_id ASC. */
  predicate RowBefore(a: ReminderRow, b: ReminderRow) {
    Less(a.triggerText, b.triggerText) || (a.triggerText == b.triggerText && LessOrEqual(a.id, b.id))
  }

  function RowOrder(table: ReminderTable): (Key, Key) -> bool {
    (a, b) => a in table.data && b in table.data && RowBefore(table.data[a], table.data[b])
  }

  function SelectDue(table: ReminderTable, nowText: string): seq<Key> {
    Sort(Filter(table.keys, SelectedBy(table, nowText)), RowOrder(table))
  }

  /** The row stores the reminder: same status, and its times as texts. */
  ghost predicate StoresReminder(cfg: Config, clock: Clock, row: ReminderRow, k: Key, r: Reminder) {
    && row.id == cfg.reminderIdText(k) && row.status == r.status
    && clock.times(r.trigger) && row.triggerText == clock.text(r.trigger)
    && match r.next
       case None => row.nextText == None
       case Some(t) => clock.times(t) && row.nextText == Some(clock.text(t))
  }

  /** The table stores these reminders, in any order; the ids are a primary key. */
  ghost predicate StoresAll(cfg: Config, clock: Clock, table: ReminderTable, reminders: map<Key, Reminder>) {
    && table.Valid() && table.data.Keys == reminders.Keys
    && (forall k | k in table.data :: StoresReminder(cfg, clock, table.data[k], k, reminders[k]))
    && (forall a, b | a in table.data && b in table.data && table.data[a].id == table.data[b].id :: a == b)
  }

  lemma SelectionAgrees(cfg: Config, clock: Clock, row: ReminderRow, k: Key, r: Reminder, now: Time)
    requires clock.Valid() && clock.times(now) && StoresReminder(cfg, clock, row, k, r)
    ensures LessOrEqual(DueText(row), clock.text(now)) <==> DueTime(r) <= now
  {
  }

  lemma OrderAgrees(cfg: Config, clock: Clock, x: ReminderRow, a: Key, ra: Reminder, y: ReminderRow, b: Key,
                    rb: Reminder)
    requires clock.Valid() && StoresReminder(cfg, clock, x, a, ra) && StoresReminder(cfg, clock, y, b, rb)
    requires ra.trigger == a.trigger && rb.trigger == b.trigger
    ensures RowBefore(x, y) == DueBefore(cfg, a, b)
    ensures RowBefore(x, y) && RowBefore(y, x) ==> x.id == y.id
  {
    LessTotal(x.id, y.id);
  }

  /** Comparing texts selects, orders and counts the due reminders exactly as comparing
      times does in memory, in whatever order the rows are scanned. */
  lemma DueQueryAgrees(cfg: Config, clock: Clock, table: ReminderTable, reminders: Dict<Key, Reminder>, now: Time)
    requires clock.Valid() && clock.times(now) && reminders.Valid() && StoresAll(cfg, clock, table, reminders.data)
    requires forall k | k in reminders.data :: reminders.data[k].trigger == k.trigger
    ensures SelectDue(table, clock.text(now)) == DueKeys(cfg, reminders, now)
    ensures |Filter(table.keys, SelectedBy(table, clock.text(now)))| == |DueKeys(cfg, reminders, now)|
  {
    var rows := Filter(table.keys, SelectedBy(table, clock.text(now)));
    var keys := Filter(reminders.keys, IsDueIn(reminders, now));
    FilterMembers(table.keys, SelectedBy(table, clock.text(now)));
    FilterMembers(reminders.keys, IsDueIn(reminders, now));
    forall k | k in table.data {
      SelectionAgrees(cfg, clock, table.data[k], k, reminders.data[k], now);
    }
    forall a, b | a in table.data && b in table.data {
      OrderAgrees(cfg, clock, table.data[a], a, reminders.data[a], table.data[b], b, reminders.data[b]);
    }
    SameMembersSortAlike(cfg, rows, keys, RowOrder(table));
    SortKeepsElements(rows, RowOrder(table));
  }

  lemma SameMembersSortAlike(cfg: Config, rows: seq<Key>, keys: seq<Key>, order: (Key, Key) -> bool)
    requires Distinct(rows) && Distinct(keys) && (forall k :: k in rows <==> k in keys)
    requires forall a, b | a in rows && b in rows :: order(a, b) == DueOrder(cfg)(a, b)
    requires AntisymmetricOn(order, rows)
    ensures Sort(rows, order) == Sort(keys, DueOrder(cfg))
  {
    var leq := DueOrder(cfg);
    SortAgrees(rows, order, leq);
    DueOrderIsTotal(cfg, rows);
    DueOrderIsTotal(cfg, keys);
    SortSorts(rows, leq);
    SortSorts(keys, leq);
    SortDistinct(rows, leq);
    SortDistinct(keys, leq);
    SortKeepsElements(rows, leq);
    SortKeepsElements(keys, leq);
    SortedUnique(Sort(rows, leq), Sort(keys, leq), leq);
  }

  /** Datetimes in UTC, written by isoformat. */
  ghost const UTC := Clock(TextOf, IsMoment)

  /** Over a table that stores a reachable state with isoformat texts, the due query gives
      that state's due list, and so the same batches and the same count. */
  lemma ReachableDueQueryAgrees(cfg: Config, ops: seq<Op>, table: ReminderTable, now: Time)
    requires IsMoment(now) && StoresAll(cfg, UTC, table, After(cfg, ops).reminders.data)
    ensures SelectDue(table, TextOf(now)) == DueKeys(cfg, After(cfg, ops).reminders, now)
    ensures |Filter(table.keys, SelectedBy(table, TextOf(now)))| == |DueKeys(cfg, After(cfg, ops).reminders, now)|
  {
    ReachableInvariants(cfg, ops);
    TextOfKeepsOrder();
    DueQueryAgrees(cfg, UTC, table, After(cfg, ops).reminders, now);
  }

  // ---------- Receipts inside the window ----------

  datatype ReceiptRow = ReceiptRow(hash: Hash, createdText: string, result: Result)

  type ReceiptTable = map<MessageKey, ReceiptRow>

  ghost predicate StoresReceipt(clock: Clock, row: ReceiptRow, r: Receipt) {
    && row.hash == r.hash && row.result == r.result
    && clock.times(r.at) && row.createdText == clock.text(r.at)
  }

  ghost predicate StoresReceipts(clock: Clock, table: ReceiptTable, receipts: map<MessageKey, Receipt>) {
    table.Keys == receipts.Keys && forall k | k in table :: StoresReceipt(clock, table[k], receipts[k])
  }

  predicate RowMatches(row: ReceiptRow, hash: Hash, lowerText: string) {
    row.hash == hash && LessOrEqual(lowerText, row.createdText)
  }

  /** ORDER BY created_at_utc DESC LIMIT 1 returns a matching row with the greatest text;
      among rows with equal texts it may be any. */
  ghost predicate MayReturn(table: ReceiptTable, hash: Hash, lowerText: string, k: MessageKey) {
    && k in table && RowMatches(table[k], hash, lowerText)
    && forall x | x in table && RowMatches(table[x], hash, lowerText) ::
         LessOrEqual(table[x].createdText, table[k].createdText)
  }

  /** The in-memory counterpart: a newest matching receipt. */
  ghost predicate IsNewest(receipts: map<MessageKey, Receipt>, hash: Hash, lower: Time, k: MessageKey) {
    && k in receipts && IsMatch(receipts[k], hash, lower)
    && forall x | x in receipts && IsMatch(receipts[x], hash, lower) :: receipts[x].at <= receipts[k].at
  }

  lemma ReturnsNewest(clock: Clock, table: ReceiptTable, receipts: map<MessageKey, Receipt>, hash: Hash, lower: Time,
                      k: MessageKey)
    requires clock.Valid() && clock.times(lower) && StoresReceipts(clock, table, receipts)
    ensures MayReturn(table, hash, clock.text(lower), k) <==> IsNewest(receipts, hash, lower, k)
  {
    forall x | x in table ensures RowMatches(table[x], hash, clock.text(lower)) <==> IsMatch(receipts[x], hash, lower) {
      assert StoresReceipt(clock, table[x], receipts[x]);
    }
    if k in table {
      forall x | x in table
        ensures LessOrEqual(table[x].createdText, table[k].createdText) <==> receipts[x].at <= receipts[k].at
      {
        assert StoresReceipt(clock, table[x], receipts[x]) && StoresReceipt(clock, table[k], receipts[k]);
      }
    }
  }

  /** The query may return a row exactly when the in-memory lookup finds a receipt, and any
      row it may return is as new as the one found in memory. */
  lemma ReceiptQueryAgrees(clock: Clock, table: ReceiptTable, receipts: Dict<MessageKey, Receipt>, hash: Hash,
                           now: Time, windowHours: int)
    returns (found: MessageKey)
    requires clock.Valid() && clock.times(now - windowHours * HOUR) && receipts.Valid()
    requires StoresReceipts(clock, table, receipts.data)
    ensures var memory := FindRecent(receipts, hash, now, windowHours);
            var lower := now - windowHours * HOUR;
            && (memory.None? ==> forall k :: !MayReturn(table, hash, clock.text(lower), k))
            && (memory.Some? ==>
                  && MayReturn(table, hash, clock.text(lower), found) && table[found].result == memory.value
                  && forall k | MayReturn(table, hash, clock.text(lower), k) ::
                       IsNewest(receipts.data, hash, lower, k) && receipts.data[k].at == receipts.data[found].at)
  {
    var lower := now - windowHours * HOUR;
    found := FindRecentIsNewest(receipts, hash, now, windowHours);
    forall k {
      ReturnsNewest(clock, table, receipts.data, hash, lower, k);
    }
  }

  lemma SharedAnswerIsReturned(cfg: Config, clock: Clock, table: ReceiptTable, receipts: Dict<MessageKey, Receipt>,
                               hash: Hash, now: Time, k: MessageKey)
    requires clock.Valid() && clock.times(now - cfg.windowHours * HOUR)
    requires StoresReceipts(clock, table, receipts.data) && ReceiptsAgree(cfg, receipts, now)
    requires MayReturn(table, hash, clock.text(now - cfg.windowHours * HOUR), k)
    ensures FindRecent(receipts, hash, now, cfg.windowHours) == Some(table[k].result)
  {
    var found := ReceiptQueryAgrees(clock, table, receipts, hash, now, cfg.windowHours);
    assert Within(receipts.data[k].at, receipts.data[found].at, cfg.windowHours * HOUR);
  }

  /** When the clock never goes back, SQLite's answer is the in-memory answer, whichever of
      several equally new rows it returns. */
  lemma ReachableReceiptQueryAgrees(cfg: Config, ops: seq<Op>, table: ReceiptTable, hash: Hash, now: Time,
                                    k: MessageKey)
    requires ClockForward(ops, now) && IsMoment(now - cfg.windowHours * HOUR)
    requires StoresReceipts(UTC, table, After(cfg, ops).receipts.data)
    requires MayReturn(table, hash, TextOf(now - cfg.windowHours * HOUR), k)
    ensures FindRecent(After(cfg, ops).receipts, hash, now, cfg.windowHours) == Some(table[k].result)
  {
    DuplicateIntentsAgree(cfg, ops, now);
    TextOfKeepsOrder();
    SharedAnswerIsReturned(cfg, UTC, table, After(cfg, ops).receipts, hash, now, k);
  }
}
