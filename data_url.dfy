/**
 * The `data:` URLs of RFC 2397, section 2, in the one shape the application
 * produces and consumes: `data:<mediatype>;base64,<data>`. The browser's
 * FileReader hands the student side such a URL; the student side keeps only
 * the part after the header, and the shop side glues a header back on to
 * download the stored data.
 */
module DataUrls {
  import opened Types
  import opened Text

  /** The URL the download builds from a MIME type and base64 data. */
  function DataUrl(mediaType: string, data: string): string {
    "data:" + mediaType + ";base64," + data
  }

  /**
   * `url.split(',')[1]`: the text between the first and the second comma
   * (or the end); None, for JavaScript's undefined, when there is no comma.
   */
  function Payload(url: string): (r: Option<string>)
    ensures r.None? <==> ',' !in url
    ensures r.Some? ==> ',' !in r.value && |r.value| < |url|
  {
    var head := BeforeFirst(url, ',');
    if |head| == |url| then
      assert head == url;
      None
    else
      assert url[|head|] == ',';
      Some(BeforeFirst(url[|head| + 1..], ','))
  }

  /** The payload is exactly the segment between the first and second comma. */
  lemma PayloadBetweenCommas(head: string, data: string, tail: string)
    requires ',' !in head && ',' !in data
    requires tail == [] || tail[0] == ','
    ensures Payload(head + "," + data + tail) == Some(data)
  {
    var url := head + "," + data + tail;
    assert url == head + [','] + (data + tail);
    BeforeFirstOfJoin(head, ',', data + tail);
    assert url[|head| + 1..] == data + tail;
    if tail == [] {
      assert data + tail == data;
      BeforeFirstWithoutSep(data, ',');
    } else {
      assert data + tail == data + [','] + tail[1..];
      BeforeFirstOfJoin(data, ',', tail[1..]);
    }
  }

  /**
   * Round trip: the data the student side cuts out of a data URL is the
   * data the URL was built from, for any comma-free media type (base64 has
   * no comma in its alphabet).
   */
  lemma PayloadOfDataUrl(mediaType: string, data: string)
    requires ',' !in mediaType && ',' !in data
    ensures Payload(DataUrl(mediaType, data)) == Some(data)
  {
    var head := "data:" + mediaType + ";base64";
    assert forall i | 0 <= i < |head| :: head[i] != ',';
    assert DataUrl(mediaType, data) == head + "," + data + [];
    PayloadBetweenCommas(head, data, []);
  }
}
