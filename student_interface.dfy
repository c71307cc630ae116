/**
 * The student's upload form (components/StudentInterface.tsx): a small
 * state machine over the selected file, the shop name, their errors, the
 * simulated upload progress and the collection code handed back.
 */
module Student {
  import opened Types
  import opened Text
  import opened DataUrls

  const ENTER_SHOP_NAME: string := "Please enter the shop name"
  const SHOP_NAME_TOO_SHORT: string := "Shop name must be at least 3 characters long"
  const MIN_SHOP_NAME_LENGTH: nat := 3

  /** The file-size error; its text (formatted size) is not modelled. */
  datatype FileError = FileTooLarge(size: int)

  /** What the form hands to the application's upload handler. */
  datatype UploadRequest = UploadRequest(file: FileInfo, shopName: string, fileData: string)

  /**
   * The base64 data `fileToBase64` resolves with: the data URL's payload.
   * None when the reader failed, and also when the data URL has no comma:
   * `split(',')[1]` is then undefined and reading its `length` throws, which
   * the same catch handles as a failed conversion.
   */
  function ConvertedData(dataUrl: Option<string>): (d: Option<string>)
    ensures d.Some? <==> dataUrl.Some? && ',' in dataUrl.value
    ensures d.Some? ==> ',' !in d.value && |d.value| < |dataUrl.value|
  {
    if dataUrl.None? then None else Payload(dataUrl.value)
  }

  /** A base64 data URL the reader produced converts back to the data it encodes. */
  lemma ConvertedDataOfDataUrl(mediaType: string, data: string)
    requires ',' !in mediaType && ',' !in data
    ensures ConvertedData(Some(DataUrl(mediaType, data))) == Some(data)
  {
    PayloadOfDataUrl(mediaType, data);
  }

  /** The error the name field shows while typing: only a too-short, non-empty name. */
  function ShopNameError(name: string): (e: Option<string>)
    ensures e.Some? <==> name != [] && |name| < MIN_SHOP_NAME_LENGTH
    ensures e.Some? ==> e.value == SHOP_NAME_TOO_SHORT
  {
    if name != [] && |name| < MIN_SHOP_NAME_LENGTH then Some(SHOP_NAME_TOO_SHORT) else None
  }

  /**
   * The interval that simulates upload progress: each tick raises the
   * progress by one; at 100 the interval is cleared and the upload callback
   * runs. `trace` is the sequence of progress values shown.
   */
  method ProgressTicks() returns (trace: seq<int>, uploadCalls: nat)
    ensures |trace| == 100
    ensures forall i | 0 <= i < |trace| :: trace[i] == i + 1
    ensures forall i | 0 <= i < |trace| :: 0 < trace[i] <= 100
    ensures uploadCalls == 1
  {
    var progress := 0;
    var running := true;
    trace := [];
    uploadCalls := 0;
    while running
      invariant 0 <= progress <= 100
      invariant running <==> progress < 100
      invariant |trace| == progress
      invariant forall i | 0 <= i < progress :: trace[i] == i + 1
      invariant uploadCalls == if running then 0 else 1
      decreases 100 - progress
    {
      progress := progress + 1;
      trace := trace + [progress];
      if progress >= 100 {
        running := false;
        uploadCalls := uploadCalls + 1;
      }
    }
  }

  /** Milliseconds between ticks: the 50 ms step, halved for files above 10 MiB. */
  function TickPeriodMs(fileSize: int): (period: real)
    ensures fileSize > LARGE_FILE_THRESHOLD_MB * 1024 * 1024 ==> period * 2.0 == UPLOAD_SIMULATION_SPEED_MS_PER_STEP as real
    ensures fileSize <= LARGE_FILE_THRESHOLD_MB * 1024 * 1024 ==> period == UPLOAD_SIMULATION_SPEED_MS_PER_STEP as real
  {
    var sizeMiB := (fileSize as real) / (1024.0 * 1024.0);
    (UPLOAD_SIMULATION_SPEED_MS_PER_STEP as real) / (if sizeMiB > LARGE_FILE_THRESHOLD_MB as real then 2.0 else 1.0)
  }

  class StudentForm {
    var selectedFile: Option<FileInfo>
    var fileError: Option<FileError>
    var shopName: string
    var shopError: Option<string>
    var isUploading: bool
    var uploadProgress: int
    var collectionCode: Option<string>

    /**
     * What every handler keeps: the stored name is normalised, progress is a
     * percentage, a selected file is within the size cap and a file error
     * never coexists with a selected file.
     */
    ghost predicate Valid()
      reads this
    {
      && NoLower(shopName) && Trimmed(shopName)
      && 0 <= uploadProgress <= 100
      && (selectedFile.Some? ==> selectedFile.value.size <= MAX_FILE_SIZE_BYTES)
      && (fileError.Some? ==> selectedFile.None?)
    }

    ghost predicate Initial()
      reads this
    {
      && selectedFile.None? && fileError.None? && shopName == [] && shopError.None?
      && !isUploading && uploadProgress == 0 && collectionCode.None?
    }

    constructor()
      ensures Initial() && Valid()
    {
      selectedFile := None;
      fileError := None;
      shopName := [];
      shopError := None;
      isUploading := false;
      uploadProgress := 0;
      collectionCode := None;
    }

    /** validateAndSetFile: a file above the cap is refused; one at or below it is selected. */
    method ValidateAndSetFile(file: FileInfo)
      requires Valid()
      modifies this
      ensures Valid()
      ensures file.size > MAX_FILE_SIZE_BYTES ==> fileError == Some(FileTooLarge(file.size)) && selectedFile.None?
      ensures file.size <= MAX_FILE_SIZE_BYTES ==> fileError.None? && selectedFile == Some(file)
      ensures shopName == old(shopName) && shopError == old(shopError)
      ensures isUploading == old(isUploading) && uploadProgress == old(uploadProgress)
      ensures collectionCode == old(collectionCode)
    {
      fileError := None;
      if file.size > MAX_FILE_SIZE_BYTES {
        fileError := Some(FileTooLarge(file.size));
        selectedFile := None;
        return;
      }
      selectedFile := Some(file);
    }

    /** handleShopNameChange: store the normalised name and flag a short one. */
    method ShopNameChange(value: string)
      requires Valid()
      modifies this
      ensures Valid()
      ensures shopName == UpperTrim(value)
      ensures shopError == ShopNameError(shopName)
      ensures selectedFile == old(selectedFile) && fileError == old(fileError)
      ensures isUploading == old(isUploading) && uploadProgress == old(uploadProgress)
      ensures collectionCode == old(collectionCode)
      // After typing, the upload button is enabled exactly when the name is long enough.
      ensures CanUpload() <==> fileError.None? && !isUploading && |shopName| >= MIN_SHOP_NAME_LENGTH
    {
      shopName := UpperTrim(value);
      shopError := ShopNameError(shopName);
      TrimOfTrimmed(shopName);
    }

    /** `shopName.trim()`: the stored name is kept trimmed, so this is the name itself. */
    method TrimmedShopName() returns (name: string)
      requires Valid()
      ensures name == shopName
    {
      TrimOfTrimmed(shopName);
      name := Trim(shopName);
    }

    /**
     * simulateUpload. `dataUrl` is what the FileReader produced (None when
     * the conversion failed) and `uploadResult` what the application's
     * upload handler returned (a collection code, or a failure). The
     * request handed to that handler, if any, is returned.
     */
    method SimulateUpload(dataUrl: Option<string>, uploadResult: Result<string, string>)
      returns (request: Option<UploadRequest>)
      requires Valid()
      modifies this
      ensures Valid()
      ensures selectedFile == old(selectedFile) && fileError == old(fileError)
      ensures shopName == old(shopName) && shopError == old(shopError)
      // Guard: nothing happens without a file or with a blank name (the stored name is already trimmed).
      ensures old(selectedFile.None? || shopName == []) ==>
                request.None? && isUploading == old(isUploading)
                && uploadProgress == old(uploadProgress) && collectionCode == old(collectionCode)
      // The conversion failed: the upload is abandoned and progress reset.
      ensures old(selectedFile.Some? && shopName != []) && ConvertedData(dataUrl).None? ==>
                request.None? && !isUploading && uploadProgress == 0 && collectionCode.None?
      // Otherwise progress reaches 100 and the handler is called once with the trimmed name and payload.
      ensures old(selectedFile.Some? && shopName != []) && ConvertedData(dataUrl).Some? ==>
                && request == Some(UploadRequest(old(selectedFile).value, old(shopName), ConvertedData(dataUrl).value))
                && uploadProgress == 100 && !isUploading
                && collectionCode == (if uploadResult.Success? then Some(uploadResult.value) else None)
    {
      request := None;
      var name := TrimmedShopName();
      if selectedFile.None? || name == [] {
        return;
      }
      request := RunUpload(name, dataUrl, uploadResult);
    }

    /**
     * The body of simulateUpload once the guard has passed: read the file,
     * run the progress interval and hand the request to the upload handler.
     */
    method RunUpload(name: string, dataUrl: Option<string>, uploadResult: Result<string, string>)
      returns (request: Option<UploadRequest>)
      requires Valid() && selectedFile.Some?
      modifies this
      ensures Valid()
      ensures selectedFile == old(selectedFile) && fileError == old(fileError)
      ensures shopName == old(shopName) && shopError == old(shopError)
      ensures ConvertedData(dataUrl).None? ==>
                request.None? && !isUploading && uploadProgress == 0 && collectionCode.None?
      ensures ConvertedData(dataUrl).Some? ==>
                && request == Some(UploadRequest(old(selectedFile).value, name, ConvertedData(dataUrl).value))
                && uploadProgress == 100 && !isUploading
                && collectionCode == (if uploadResult.Success? then Some(uploadResult.value) else None)
    {
      request := None;
      isUploading := true;
      uploadProgress := 0;
      collectionCode := None;
      var converted := ConvertedData(dataUrl);
      if converted.None? {
        isUploading := false;
        uploadProgress := 0;
        return;
      }
      var fileData := converted.value;
      var trace, calls := ProgressTicks();
      uploadProgress := trace[|trace| - 1];
      request := Some(UploadRequest(selectedFile.value, name, fileData));
      if uploadResult.Success? {
        collectionCode := Some(uploadResult.value);
      }
      isUploading := false;
    }

    /**
     * handleUploadClick: a blank name and a short name are reported on the
     * name field; otherwise the upload runs when a file is selected and no
     * file error is shown.
     */
    method UploadClick(dataUrl: Option<string>, uploadResult: Result<string, string>)
      returns (request: Option<UploadRequest>)
      requires Valid()
      modifies this
      ensures Valid()
      ensures selectedFile == old(selectedFile) && fileError == old(fileError) && shopName == old(shopName)
      ensures old(shopName) == [] ==> shopError == Some(ENTER_SHOP_NAME) && request.None?
      ensures old(shopName) != [] && |old(shopName)| < MIN_SHOP_NAME_LENGTH ==>
                shopError == Some(SHOP_NAME_TOO_SHORT) && request.None?
      // A refused name starts nothing; an accepted one leaves the name error as it was.
      ensures |old(shopName)| < MIN_SHOP_NAME_LENGTH ==>
                isUploading == old(isUploading) && uploadProgress == old(uploadProgress)
                && collectionCode == old(collectionCode)
      ensures |old(shopName)| >= MIN_SHOP_NAME_LENGTH ==> shopError == old(shopError)
      // With an accepted name, the upload runs exactly as SimulateUpload states.
      ensures |old(shopName)| >= MIN_SHOP_NAME_LENGTH && old(selectedFile).Some? && ConvertedData(dataUrl).None? ==>
                request.None? && !isUploading && uploadProgress == 0 && collectionCode.None?
      ensures |old(shopName)| >= MIN_SHOP_NAME_LENGTH && old(selectedFile).Some? && ConvertedData(dataUrl).Some? ==>
                && request == Some(UploadRequest(old(selectedFile).value, old(shopName), ConvertedData(dataUrl).value))
                && uploadProgress == 100 && !isUploading
                && collectionCode == (if uploadResult.Success? then Some(uploadResult.value) else None)
      ensures request.Some? ==> |old(shopName)| >= MIN_SHOP_NAME_LENGTH && old(selectedFile).Some?
      ensures old(selectedFile).None? ==>
                request.None? && isUploading == old(isUploading) && uploadProgress == old(uploadProgress)
                && collectionCode == old(collectionCode)
    {
      request := None;
      var name := TrimmedShopName();
      if name == [] {
        shopError := Some(ENTER_SHOP_NAME);
        return;
      }
      if |name| < MIN_SHOP_NAME_LENGTH {
        shopError := Some(SHOP_NAME_TOO_SHORT);
        return;
      }
      if selectedFile.Some? && fileError.None? {
        assert shopName == name && shopName != [];
        request := SimulateUpload(dataUrl, uploadResult);
      }
    }

    /** resetUpload: every field back to its initial value. */
    method Reset()
      modifies this
      ensures Initial() && Valid()
    {
      selectedFile := None;
      shopName := [];
      shopError := None;
      isUploading := false;
      uploadProgress := 0;
      collectionCode := None;
      fileError := None;
    }

    /** The upload button is enabled (the button itself shows only while a file is selected). */
    predicate CanUpload()
      reads this
    {
      fileError.None? && shopError.None? && Trim(shopName) != [] && !isUploading
    }
  }
}
