/** Request sequences against a fresh table, run through the handlers'
    contracts alone. */
module Scenarios {

  import opened Wrappers
  import opened ShortCodeHelpers
  import opened Models
  import opened Api

  const LongURL: string := "https://example.com/a/b"

  /** As written, a shorten request without a custom code stores its record
      under the empty code and answers with the bare base URL; a second such
      request then collides with that record on the unique index and fails
      with 500, although its generated candidate was free. */
  method GeneratedShortenCollidesOnEmptyCode() returns (first: Status, firstShortURL: string, second: Status)
    ensures first == OK && firstShortURL == BaseURL
    ensures second == InternalServerError
  {
    var table := new UrlTable();
    var req := ShortenRequest(true, LongURL, None);
    first, firstShortURL := table.ShortenURL(req, false, [Attempt([0, 0, 0, 0, 0, 0], false)], 1, 100, false);
    assert "" in table.records;
    var secondShortURL;
    second, secondShortURL := table.ShortenURL(req, false, [Attempt([1, 1, 1, 1, 1, 1], false)], 2, 101, false);
  }

  /** As intended, the same two requests both succeed, each under its own
      generated six-symbol code; the second retries past a collision. */
  method GeneratedShortenIntendedSucceeds()
    returns (first: Status, firstShortURL: string, second: Status, secondShortURL: string)
    ensures first == OK && second == OK
    ensures firstShortURL == BaseURL + "aaaaaa" && secondShortURL == BaseURL + "bbbbbb"
  {
    var table := new UrlTable();
    var req := ShortenRequest(true, LongURL, Some(""));
    var zeros: seq<byte> := [0, 0, 0, 0, 0, 0];
    var ones: seq<byte> := [1, 1, 1, 1, 1, 1];
    SixEqualBytes(zeros, ones);
    assert Retry(table.records, [Attempt(zeros, false)]) == Free("aaaaaa");
    first, firstShortURL := table.ShortenURLIntended(req, false, [Attempt(zeros, false)], 1, 100, false);
    assert "aaaaaa" in table.records && "bbbbbb" !in table.records;
    assert Retry(table.records, [Attempt(ones, false)]) == Free("bbbbbb");
    assert Retry(table.records, [Attempt(zeros, false), Attempt(ones, false)]) == Free("bbbbbb");
    second, secondShortURL := table.ShortenURLIntended(req, false, [Attempt(zeros, false), Attempt(ones, false)], 2, 101, false);
  }

  /** Six equal random bytes spell six equal symbols. */
  lemma EncodesAs(bytes: seq<byte>, v: byte)
    requires |bytes| == 6 && forall i :: 0 <= i < 6 ==> bytes[i] == v
    ensures var c := Charset[v as int % 62]; Encode(bytes) == [c, c, c, c, c, c]
  {
    forall i | 0 <= i < 6 ensures Encode(bytes)[i] == Charset[v as int % 62] {
      EncodeAt(bytes, i);
    }
  }

  lemma SixEqualBytes(zeros: seq<byte>, ones: seq<byte>)
    requires zeros == [0, 0, 0, 0, 0, 0] && ones == [1, 1, 1, 1, 1, 1]
    ensures Generate(GeneratedLength, zeros) == ("aaaaaa", None)
    ensures Generate(GeneratedLength, ones) == ("bbbbbb", None)
  {
    CharsetSymbols();
    EncodesAs(zeros, 0);
    EncodesAs(ones, 1);
    assert zeros[..6] == zeros && ones[..6] == ones;
  }

  /** A custom code: created once, refused the second time, followed by a
      redirect that counts one click; editing an unknown code is 404, and
      deleting the code works once and is 500 the second time. */
  method CustomCodeLifecycle()
    returns (created: Status, duplicate: Status, redirected: Status, location: string,
             clicks: int64, editUnknown: Status, deleted: Status, deletedAgain: Status)
    ensures created == OK && duplicate == Conflict
    ensures redirected == MovedPermanently && location == LongURL && clicks == 1
    ensures editUnknown == NotFound
    ensures deleted == OK && deletedAgain == InternalServerError
  {
    var table := new UrlTable();
    var req := ShortenRequest(true, LongURL, Some("promo"));
    var shortURL;
    created, shortURL := table.ShortenURL(req, false, [], 1, 100, false);
    duplicate, shortURL := table.ShortenURL(req, false, [], 2, 101, false);
    redirected, location := table.Redirect("promo", false, false, 102);
    var status, stats := table.GetStats("promo", false);
    clicks := stats.value.clicks;
    editUnknown := table.EditURL("unknown", EditRequest(true, "https://example.com/c"), false);
    deleted := table.DeleteURL("promo", false);
    deletedAgain := table.DeleteURL("promo", false);
  }
}
