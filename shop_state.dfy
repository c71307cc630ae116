/**
 * The application state of App.tsx seen from the shop: the active shop ID,
 * the document queue, the dashboard statistics, the local daily counter and
 * the day of the last reset, together with the two stores it talks to (the
 * real-time database's counters and documents, and the browser's local
 * storage). React effects that mirror state into storage or statistics are
 * folded into the handler whose update triggers them.
 */
module ShopApp {
  import opened Types
  import opened Text
  import opened CollectionCodes
  import opened Queue
  import opened ShopView

  /** Where a document lives in the store: documents/{shop}/{code}. */
  datatype DocumentKey = DocumentKey(shop: string, code: string)

  /** The three local-storage entries: docuShareShopId, docuShareCounter, docuShareResetDate. */
  datatype Settings = Settings(shopId: Option<string>, counter: Option<string>, resetDate: Option<string>)

  /** The failure the upload handler rethrows when the document write fails. */
  datatype UploadError = DocumentWriteFailed

  /** What a completion request came to. */
  datatype Completion =
    | NotInQueue
    | NoActiveShop
    | CompletionWriteFailed
    | Done(waitMinutes: real)

  /** The shop-ID effect: a truthy ID is saved, anything else removed. */
  function PersistedShopId(shopId: Option<string>): (saved: Option<string>)
    ensures saved.Some? <==> Truthy(shopId)
    ensures saved.Some? ==> saved == shopId
  {
    if Truthy(shopId) then shopId else None
  }

  /**
   * The counter the store issues for `key` when the read and the write both
   * succeed: one more than the stored value, or 1 when none is stored.
   */
  function NextStoredCounter(counters: map<CounterKey, int>, key: CounterKey): (c: int)
    ensures key !in counters ==> c == 1
    ensures key in counters ==> c == counters[key] + 1
    ensures (forall k | k in counters :: counters[k] >= 0) ==> c >= 1
  {
    if key in counters then counters[key] + 1 else 1
  }

  /** Two uploads in a row for one shop and day get consecutive counters, hence different codes. */
  lemma ConsecutiveUploadsDiffer(counters: map<CounterKey, int>, key: CounterKey, shopPrefix: string)
    requires forall k | k in counters :: counters[k] >= 0
    ensures var c1 := NextStoredCounter(counters, key);
            var c2 := NextStoredCounter(counters[key := c1], key);
            && c2 == c1 + 1
            && CollectionCode(shopPrefix, key.day, c1) != CollectionCode(shopPrefix, key.day, c2)
  {
    var c1 := NextStoredCounter(counters, key);
    var c2 := NextStoredCounter(counters[key := c1], key);
    CodesDistinct(shopPrefix, key.day, c1, c2);
  }

  /**
   * The same-day branch of the start-up check: a saved counter that parses
   * replaces the current one; an unparseable one (NaN in the application)
   * leaves it as it is. A counter saved by String(counter) comes back.
   */
  function RestoredCounter(saved: Option<string>, current: int): (c: int)
    ensures Truthy(saved) && ParseInt(saved.value).Some? ==> c == ParseInt(saved.value).value
    ensures !(Truthy(saved) && ParseInt(saved.value).Some?) ==> c == current
    ensures forall n :: saved == Some(IntToString(n)) ==> c == n
  {
    forall n | saved == Some(IntToString(n)) ensures ParseInt(saved.value) == Some(n) {
      ParseIntRoundTrip(n);
    }
    if Truthy(saved) && ParseInt(saved.value).Some? then ParseInt(saved.value).value else current
  }

  /** counters/{activeShopName}/{datePrefix}. */
  function UploadKey(shopName: string, shopId: Option<string>, today: CalendarDate): (key: CounterKey)
    ensures key.shop != [] && key.day == DatePrefix(today)
  {
    CounterKey(ActiveShopName(shopName, shopId), DatePrefix(today))
  }

  /**
   * The code an upload returns: from the stored counter when managing it
   * succeeds, from the local daily counter when it throws.
   */
  function IssuedCode(shopName: string, shopId: Option<string>, today: CalendarDate,
                      counters: map<CounterKey, int>, counterWriteFails: bool, dailyCounter: int): string
  {
    var key := UploadKey(shopName, shopId, today);
    var counter := if counterWriteFails then dailyCounter else NextStoredCounter(counters, key);
    CollectionCode(ShopPrefix(key.shop), key.day, counter)
  }

  /**
   * A shop name coming from the student form is already upper-cased, so the
   * code's prefix is simply its first four characters, and the counter is
   * kept under that very name.
   */
  lemma FormNameGivesPrefix(shopName: string, shopId: Option<string>, today: CalendarDate)
    requires shopName != [] && NoLower(shopName)
    ensures UploadKey(shopName, shopId, today).shop == shopName
    ensures ShopPrefix(shopName) == shopName[..if |shopName| < 4 then |shopName| else 4]
  {
    var p := shopName[..if |shopName| < 4 then |shopName| else 4];
    assert NoLower(p);
    assert ToUpper(p) == p;
  }

  /** The record the upload handler writes. */
  function PendingRecord(code: string, file: FileInfo, typeLabel: string, now: int,
                         active: string, fileData: Option<string>): (r: StoredRecord)
    ensures r.id == code && r.status == Some(Pending) && r.shopName == Some(active)
    ensures ToDocument(r) == DocumentItem(code, file.name, file.size, typeLabel, now, Pending, fileData)
  {
    StoredRecord(code, file.name, file.size, typeLabel, now, Some(Pending), Some(active), fileData, None)
  }

  /**
   * The record the completion handler writes: the queued document's own
   * fields with status completed and the completion time. The shop name
   * the upload stored is not among them, so it is dropped.
   */
  function CompletedRecord(doc: DocumentItem, now: int): (r: StoredRecord)
    ensures r.id == doc.id && r.shopName.None? && r.completedTimestamp == Some(now)
    ensures ToDocument(r) == doc.(status := Completed)
  {
    StoredRecord(doc.id, doc.fileName, doc.fileSize, doc.fileTypeDisplay, doc.uploadTimestamp,
                 Some(Completed), None, doc.fileData, Some(now))
  }

  class ShopState {
    var shopId: Option<string>
    var queue: seq<DocumentItem>
    var stats: ShopStats
    var dailyCounter: int
    var lastResetDate: string
    var counters: map<CounterKey, int>
    var documents: map<DocumentKey, StoredRecord>
    var settings: Settings

    /**
     * What the effects keep true between handlers: inQueue is the queue's
     * length, the queue is in upload order, and local storage mirrors the
     * daily counter and the shop ID.
     */
    ghost predicate Valid()
      reads this
    {
      && stats.inQueue == |queue|
      && SortedByUpload(queue)
      && settings.counter == Some(IntToString(dailyCounter))
      && settings.shopId == PersistedShopId(shopId)
    }

    /**
     * Mounting the application: the initial state (shop ID read from local
     * storage, empty queue, zero statistics, counter 1, today as the reset
     * day), then the start-up day check and the storage effects.
     */
    constructor(saved: Settings, today: string,
                storedCounters: map<CounterKey, int>, storedDocuments: map<DocumentKey, StoredRecord>)
      ensures Valid()
      ensures shopId == saved.shopId && queue == [] && lastResetDate == today
      ensures counters == storedCounters && documents == storedDocuments
      ensures settings.resetDate == Some(today)
      // Whatever the saved day, the statistics start from zero.
      ensures stats == InitialStats
      // A new day: counter 1.
      ensures Truthy(saved.resetDate) && saved.resetDate.value != today ==> dailyCounter == 1
      // The same day: the counter saved by String(counter) is restored; without
      // a readable saved counter it stays 1.
      ensures saved.resetDate == Some(today) && today != [] && saved.counter.Some? ==>
                (forall c :: saved.counter.value == IntToString(c) ==> dailyCounter == c)
      ensures saved.resetDate == Some(today) && today != []
                && !(Truthy(saved.counter) && ParseInt(saved.counter.value).Some?) ==>
                dailyCounter == 1
      ensures !Truthy(saved.resetDate) ==> dailyCounter == 1
    {
      shopId := saved.shopId;
      queue := [];
      stats := InitialStats;
      dailyCounter := 1;
      lastResetDate := today;
      counters := storedCounters;
      documents := storedDocuments;
      settings := saved;
      new;
      StartupDayCheck(today);
    }

    /**
     * The start-up effect: roll the daily counters over when the saved reset
     * day is another day, restore the saved counter on the same day, and
     * record the current values when nothing was saved. Then the counter and
     * shop-ID effects write their values.
     */
    method StartupDayCheck(today: string)
      requires lastResetDate == today && dailyCounter == 1
      requires stats.inQueue == |queue| && SortedByUpload(queue)
      modifies this
      ensures Valid()
      ensures shopId == old(shopId) && queue == old(queue)
      ensures counters == old(counters) && documents == old(documents)
      ensures lastResetDate == today && settings.resetDate == Some(today)
      ensures Truthy(old(settings).resetDate) && old(settings).resetDate.value != today ==>
                && dailyCounter == 1
                && stats == old(stats).(documentsToday := 0, completedToday := 0,
                                        totalWaitTime := 0.0, avgWaitTimeCalculatedForItems := 0)
      ensures old(settings).resetDate == Some(today) && today != [] ==>
                && stats == old(stats)
                && (Truthy(old(settings).counter) && ParseInt(old(settings).counter.value).Some? ==>
                      dailyCounter == ParseInt(old(settings).counter.value).value)
                && (forall c :: old(settings).counter == Some(IntToString(c)) ==> dailyCounter == c)
                && (!(Truthy(old(settings).counter) && ParseInt(old(settings).counter.value).Some?) ==>
                      dailyCounter == 1)
      ensures !Truthy(old(settings).resetDate) ==> dailyCounter == 1 && stats == old(stats)
    {
      var savedCounter := settings.counter;
      var savedResetDate := settings.resetDate;
      if Truthy(savedResetDate) && savedResetDate.value != today {
        settings := settings.(resetDate := Some(today));
        lastResetDate := today;
        dailyCounter := 1;
        settings := settings.(counter := Some("1"));
        stats := stats.(documentsToday := 0, completedToday := 0,
                        totalWaitTime := 0.0, avgWaitTimeCalculatedForItems := 0);
      } else if Truthy(savedResetDate) {
        lastResetDate := savedResetDate.value;
        dailyCounter := RestoredCounter(savedCounter, dailyCounter);
      } else {
        settings := settings.(resetDate := Some(lastResetDate),
                              counter := Some(IntToString(dailyCounter)));
      }
      settings := settings.(counter := Some(IntToString(dailyCounter)),
                            shopId := PersistedShopId(shopId));
    }

    /** handleSetShopId: the ID is stored upper-cased and trimmed, and saved when not empty. */
    method SetShopId(id: string)
      requires Valid()
      modifies this
      ensures Valid()
      ensures shopId == Some(UpperTrim(id))
      ensures NoLower(shopId.value) && Trimmed(shopId.value)
      ensures settings.shopId.Some? <==> UpperTrim(id) != []
      ensures queue == old(queue) && stats == old(stats) && dailyCounter == old(dailyCounter)
      ensures lastResetDate == old(lastResetDate)
      ensures counters == old(counters) && documents == old(documents)
      ensures settings.counter == old(settings.counter) && settings.resetDate == old(settings.resetDate)
    {
      var normalizedId := UpperTrim(id);
      shopId := Some(normalizedId);
      settings := settings.(shopId := PersistedShopId(shopId));
    }

    /**
     * The snapshot handler of the shop's document subscription, followed by
     * the inQueue effect. `snapshot` is None when no documents exist and
     * otherwise lists the records in the order the store enumerates them.
     */
    method OnSnapshot(snapshot: Option<seq<StoredRecord>>)
      requires Valid()
      modifies this
      ensures Valid()
      ensures queue == Reconcile(snapshot)
      ensures stats == old(stats).(inQueue := |queue|)
      ensures shopId == old(shopId) && dailyCounter == old(dailyCounter)
      ensures lastResetDate == old(lastResetDate) && settings == old(settings)
      ensures counters == old(counters) && documents == old(documents)
    {
      queue := Reconcile(snapshot);
      stats := stats.(inQueue := |queue|);
    }

    /** Outside shop mode, or without a shop ID, the queue is cleared. */
    method ClearQueue()
      requires Valid()
      modifies this
      ensures Valid()
      ensures queue == [] && stats == old(stats).(inQueue := 0)
      ensures shopId == old(shopId) && dailyCounter == old(dailyCounter)
      ensures lastResetDate == old(lastResetDate) && settings == old(settings)
      ensures counters == old(counters) && documents == old(documents)
    {
      queue := [];
      stats := stats.(inQueue := |queue|);
    }

    /**
     * The counter part of handleFileUpload: read the stored counter for
     * `key`, add one (or start at 1) and write it back; when that throws,
     * take the local daily counter and advance it instead.
     */
    method IssueCounter(key: CounterKey, counterWriteFails: bool) returns (counter: int)
      requires Valid()
      modifies this
      ensures Valid()
      ensures !counterWriteFails ==>
                && counter == NextStoredCounter(old(counters), key)
                && counters == old(counters)[key := counter] && dailyCounter == old(dailyCounter)
      ensures counterWriteFails ==>
                && counter == old(dailyCounter)
                && counters == old(counters) && dailyCounter == old(dailyCounter) + 1
      ensures shopId == old(shopId) && queue == old(queue) && stats == old(stats)
      ensures lastResetDate == old(lastResetDate) && documents == old(documents)
      ensures settings.shopId == old(settings.shopId) && settings.resetDate == old(settings.resetDate)
    {
      counter := 1;
      if !counterWriteFails {
        if key in counters {
          counter := counters[key] + 1;
        }
        counters := counters[key := counter];
      } else {
        counter := dailyCounter;
        dailyCounter := dailyCounter + 1;
        settings := settings.(counter := Some(IntToString(dailyCounter)));
      }
    }

    /**
     * handleFileUpload. `shopName` is the name the student typed ("" when
     * none), `typeLabel` the file-type label, `today` and `now` the clock,
     * `counterWriteFails` whether managing the stored counter throws and
     * `documentWriteFails` whether writing the document throws.
     */
    method Upload(file: FileInfo, shopName: string, fileData: Option<string>, typeLabel: string,
                  today: CalendarDate, now: int, counterWriteFails: bool, documentWriteFails: bool)
      returns (r: Result<string, UploadError>)
      requires Valid()
      modifies this
      ensures Valid()
      ensures counters == (if counterWriteFails then old(counters)
                           else var key := UploadKey(shopName, old(shopId), today);
                                old(counters)[key := NextStoredCounter(old(counters), key)])
      ensures documentWriteFails ==>
                r == Failure(DocumentWriteFailed) && documents == old(documents) && stats == old(stats)
      ensures !documentWriteFails ==>
                var code := IssuedCode(shopName, old(shopId), today, old(counters), counterWriteFails, old(dailyCounter));
                var active := ActiveShopName(shopName, old(shopId));
                && r == Success(code)
                && documents == old(documents)[DocumentKey(active, code) :=
                                 PendingRecord(code, file, typeLabel, now, active, fileData)]
                && stats == old(stats).(documentsToday := old(stats).documentsToday + 1)
      // The local counter: +1 for the fallback, +1 for a written document.
      ensures dailyCounter == old(dailyCounter) + (if counterWriteFails then 1 else 0)
                                                 + (if documentWriteFails then 0 else 1)
      ensures shopId == old(shopId) && queue == old(queue) && lastResetDate == old(lastResetDate)
      ensures settings.shopId == old(settings.shopId) && settings.resetDate == old(settings.resetDate)
    {
      var datePrefix := DatePrefix(today);
      var activeShopName := ActiveShopName(shopName, shopId);
      var shopPrefix := ShopPrefix(activeShopName);
      var key := CounterKey(activeShopName, datePrefix);
      var currentCounter := IssueCounter(key, counterWriteFails);
      var collectionCode := CollectionCode(shopPrefix, datePrefix, currentCounter);
      if documentWriteFails {
        return Failure(DocumentWriteFailed);
      }
      RecordUpload(DocumentKey(activeShopName, collectionCode),
                   PendingRecord(collectionCode, file, typeLabel, now, activeShopName, fileData));
      return Success(collectionCode);
    }

    /**
     * The success half of handleFileUpload: the pending record is written,
     * the local counter advanced and the upload counted for today.
     */
    method RecordUpload(key: DocumentKey, record: StoredRecord)
      requires Valid()
      modifies this
      ensures Valid()
      ensures documents == old(documents)[key := record]
      ensures dailyCounter == old(dailyCounter) + 1
      ensures stats == old(stats).(documentsToday := old(stats).documentsToday + 1)
      ensures shopId == old(shopId) && queue == old(queue) && lastResetDate == old(lastResetDate)
      ensures counters == old(counters)
      ensures settings.shopId == old(settings.shopId) && settings.resetDate == old(settings.resetDate)
    {
      documents := documents[key := record];
      dailyCounter := dailyCounter + 1;
      settings := settings.(counter := Some(IntToString(dailyCounter)));
      stats := stats.(documentsToday := stats.documentsToday + 1);
    }

    /**
     * handleCompleteDocument. Nothing happens for an id not in the queue or
     * without an active shop ID, and nothing but the outcome when the write
     * fails. Otherwise the completed record is written, the completion is
     * counted with its wait, and the document leaves the queue.
     */
    method CompleteDocument(docId: string, now: int, writeFails: bool) returns (outcome: Completion)
      requires Valid()
      modifies this
      ensures Valid()
      ensures shopId == old(shopId) && dailyCounter == old(dailyCounter)
      ensures lastResetDate == old(lastResetDate) && settings == old(settings) && counters == old(counters)
      ensures (outcome.NotInQueue? <==> FindById(old(queue), docId).None?)
      ensures (outcome.NoActiveShop? <==> FindById(old(queue), docId).Some? && !Truthy(shopId))
      ensures !outcome.Done? ==>
                queue == old(queue) && stats == old(stats) && documents == old(documents)
      ensures outcome.Done? ==>
                var doc := FindById(old(queue), docId).value;
                && outcome.waitMinutes == WaitMinutes(doc.uploadTimestamp, now)
                && documents == old(documents)[DocumentKey(shopId.value, docId) := CompletedRecord(doc, now)]
                && queue == RemoveId(old(queue), docId)
                && stats == old(stats).(completedToday := old(stats).completedToday + 1,
                                        totalWaitTime := old(stats).totalWaitTime + outcome.waitMinutes,
                                        avgWaitTimeCalculatedForItems := old(stats).avgWaitTimeCalculatedForItems + 1,
                                        inQueue := |queue|)
      ensures outcome.Done? <==> FindById(old(queue), docId).Some? && Truthy(shopId) && !writeFails
    {
      var doc := FindById(queue, docId);
      if doc.None? {
        return NotInQueue;
      }
      if !Truthy(shopId) {
        return NoActiveShop;
      }
      var waitTime := WaitMinutes(doc.value.uploadTimestamp, now);
      if writeFails {
        return CompletionWriteFailed;
      }
      RecordCompletion(DocumentKey(shopId.value, docId), CompletedRecord(doc.value, now), waitTime);
      return Done(waitTime);
    }

    /**
     * The success half of handleCompleteDocument: the completed record is
     * written, the completion and its wait are counted, and every queue
     * entry with that collection code is filtered out.
     */
    method RecordCompletion(key: DocumentKey, record: StoredRecord, waitTime: real)
      requires Valid()
      modifies this
      ensures Valid()
      ensures documents == old(documents)[key := record]
      ensures queue == RemoveId(old(queue), key.code)
      ensures stats == old(stats).(completedToday := old(stats).completedToday + 1,
                                   totalWaitTime := old(stats).totalWaitTime + waitTime,
                                   avgWaitTimeCalculatedForItems := old(stats).avgWaitTimeCalculatedForItems + 1,
                                   inQueue := |queue|)
      ensures shopId == old(shopId) && dailyCounter == old(dailyCounter)
      ensures lastResetDate == old(lastResetDate) && settings == old(settings) && counters == old(counters)
    {
      documents := documents[key := record];
      RemoveIdSorted(queue, key.code);
      var remaining := FilterOutId(queue, key.code);
      queue := remaining;
      stats := stats.(completedToday := stats.completedToday + 1,
                      totalWaitTime := stats.totalWaitTime + waitTime,
                      avgWaitTimeCalculatedForItems := stats.avgWaitTimeCalculatedForItems + 1,
                      inQueue := |remaining|);
    }
  }

  lemma HalfHourWait(t: int)
    ensures WaitMinutes(t, t + 30 * 60000) == 30.0
  {
    assert (t + 30 * 60000) - t == 1800000;
  }

  /**
   * A shop whose statistics are at their initial values receives one
   * document and completes it 30 minutes after its upload: the statistics
   * count one completion with a total wait of 30 minutes, while
   * avgWaitTimeMinutes stays at 0.
   */
  method OneCompletionStats(shop: ShopState, code: string, file: FileInfo, typeLabel: string, uploadedAt: int)
    returns (stats: ShopStats)
    requires shop.Valid() && shop.stats == InitialStats && Truthy(shop.shopId)
    modifies shop
    ensures stats.avgWaitTimeCalculatedForItems == 1
    ensures stats.totalWaitTime == 30.0 && stats.avgWaitTimeMinutes == 0.0
  {
    var record := PendingRecord(code, file, typeLabel, uploadedAt, shop.shopId.value, None);
    ReconcileSingle(record);
    shop.OnSnapshot(Some([record]));
    var doc := ToDocument(record);
    assert shop.queue == [doc];
    FindSingle(doc);
    var outcome := shop.CompleteDocument(code, uploadedAt + 30 * 60000, false);
    HalfHourWait(uploadedAt);
    stats := shop.stats;
  }

  /**
   * The same on a freshly mounted shop: the average-wait card as written
   * shows 0 hours; the mean wait it was meant to show is half an hour.
   */
  method AverageWaitAfterOneCompletion(shopId: string, today: string, code: string,
                                       file: FileInfo, typeLabel: string, uploadedAt: int)
    returns (shown: WaitDisplay, intended: WaitDisplay)
    requires shopId != []
    ensures shown == Hours(0.0)
    ensures intended == Hours(0.5)
  {
    var shop := new ShopState(Settings(Some(shopId), None, None), today, map[], map[]);
    var stats := OneCompletionStats(shop, code, file, typeLabel, uploadedAt);
    shown := AvgWaitDisplay(stats);
    intended := AvgWaitDisplayCorrected(stats);
  }
}
