/**
 * Records and constants shared by the shop and student sides of the
 * document hand-off application (types.ts and constants.ts).
 */
module Types {

  datatype Option<+T> = None | Some(value: T)

  datatype Result<+R, +E> = Success(value: R) | Failure(error: E)

  /** An optional JavaScript string is truthy when it is present and not empty. */
  predicate Truthy(s: Option<string>) { s.Some? && s.value != [] }

  /** Upper bound on an uploaded file: 100 MiB. */
  const MAX_FILE_SIZE_MB: int := 100
  const MAX_FILE_SIZE_BYTES: int := MAX_FILE_SIZE_MB * 1024 * 1024
  /** Files above this many MiB get the faster progress ticks. */
  const LARGE_FILE_THRESHOLD_MB: int := 10
  /** Milliseconds per 1% of simulated upload progress. */
  const UPLOAD_SIMULATION_SPEED_MS_PER_STEP: nat := 50
  /** The shop-ID input field keeps at most this many characters. */
  const SHOP_ID_MAX_LENGTH: nat := 12

  datatype Status = Pending | Completed

  /** A queued document as the shop sees it (DocumentItem). */
  datatype DocumentItem = DocumentItem(
    id: string,
    fileName: string,
    fileSize: int,
    fileTypeDisplay: string,
    uploadTimestamp: int,
    status: Status,
    fileData: Option<string>)

  /**
   * A record as it sits in the real-time store under documents/{shop}/{code}.
   * Fields the writer left out are None; `status` may be missing.
   */
  datatype StoredRecord = StoredRecord(
    id: string,
    fileName: string,
    fileSize: int,
    fileTypeDisplay: string,
    uploadTimestamp: int,
    status: Option<Status>,
    shopName: Option<string>,
    fileData: Option<string>,
    completedTimestamp: Option<int>)

  /** Aggregate counters shown on the shop dashboard (ShopStats). */
  datatype ShopStats = ShopStats(
    totalProcessed: int,
    todayCount: int,
    avgWaitTimeMinutes: real,
    avgWaitTimeCalculatedForItems: int,
    documentsToday: int,
    inQueue: int,
    completedToday: int,
    totalWaitTime: real)

  const InitialStats: ShopStats :=
    ShopStats(0, 0, 0.0, 0, 0, 0, 0, 0.0)

  /** The browser File object, reduced to what the core reads from it. */
  datatype FileInfo = FileInfo(name: string, size: int)
}
