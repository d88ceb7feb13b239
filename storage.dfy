/**
 * The storage side of the gateway (s3Client in main.go): the S3 data it
 * reads, the paginated prefix listing and the pre-signed link. The S3 API is
 * a pair of functions: one answers a ListObjectsV2 request with a page or an
 * error, the other answers a pre-sign request with a URL or an error.
 */
module Storage {
  import opened Wrappers
  import opened Humanize

  /** A Go `error`, by the text of its Error() method. */
  datatype Error = Error(message: string)

  /** A time.Time, as nanoseconds after Go's zero time (January 1 of year 1, UTC). */
  datatype Time = Time(sinceZero: int)

  const ZeroTime: Time := Time(0)

  /** A time.Duration, in nanoseconds. */
  type Duration = int

  const Minute: Duration := 60_000_000_000

  /** Every pre-signed link is valid for five minutes. */
  const LinkTTL: Duration := 5 * Minute

  const Delimiter: string := "/"

  /** One element of ListObjectsV2Output.Contents; each field is a pointer that may be nil. */
  datatype ObjectInfo = ObjectInfo(key: Option<string>, size: Option<Int64>, lastModified: Option<Time>)

  /** The parts of a ListObjectsV2Output that the gateway reads. */
  datatype Page = Page(
    contents: seq<ObjectInfo>,
    commonPrefixes: seq<Option<string>>,
    isTruncated: Option<bool>,
    nextContinuationToken: Option<string>)

  datatype ListRequest = ListRequest(bucket: string, delimiter: string, prefix: string, continuationToken: Option<string>)

  datatype PresignRequest = PresignRequest(bucket: string, key: string, expires: Duration)

  /** The S3 operations the gateway calls. */
  datatype Api = Api(
    listObjectsV2: ListRequest -> Result<Page, Error>,
    presign: PresignRequest -> Result<string, Error>)

  /** s3Client: the API and the bucket name, fixed at start-up. */
  datatype Client = Client(api: Api, bucket: string)

  /** One listing entry (`file` in main.go): an object, or a common prefix shown as a directory. */
  datatype File = File(name: string, isDir: bool, size: Int64, lastModified: Time)

  /** aws.StringValue, aws.Int64Value, aws.TimeValue and aws.BoolValue: nil reads as the zero value. */
  function StringValue(p: Option<string>): string {
    if p.Some? then p.value else ""
  }

  function Int64Value(p: Option<Int64>): Int64 {
    if p.Some? then p.value else 0
  }

  function TimeValue(p: Option<Time>): Time {
    if p.Some? then p.value else ZeroTime
  }

  function BoolValue(p: Option<bool>): bool {
    p.Some? && p.value
  }

  function ObjectFile(o: ObjectInfo): File {
    File(StringValue(o.key), false, Int64Value(o.size), TimeValue(o.lastModified))
  }

  function PrefixFile(p: Option<string>): File {
    File(StringValue(p), true, 0, ZeroTime)
  }

  function ObjectFiles(os: seq<ObjectInfo>): (fs: seq<File>)
    ensures |fs| == |os|
    ensures forall i :: 0 <= i < |os| ==> fs[i] == ObjectFile(os[i])
  {
    if |os| == 0 then [] else ObjectFiles(os[..|os| - 1]) + [ObjectFile(os[|os| - 1])]
  }

  function PrefixFiles(ps: seq<Option<string>>): (fs: seq<File>)
    ensures |fs| == |ps|
    ensures forall i :: 0 <= i < |ps| ==> fs[i] == PrefixFile(ps[i])
  {
    if |ps| == 0 then [] else PrefixFiles(ps[..|ps| - 1]) + [PrefixFile(ps[|ps| - 1])]
  }

  /** What one page contributes: its objects as files, then its common prefixes as directories. */
  function PageFiles(p: Page): seq<File> {
    ObjectFiles(p.contents) + PrefixFiles(p.commonPrefixes)
  }

  /** One entry per object, as a file and in order, then one per common prefix, as a directory and in order. */
  lemma PageFilesOrder(p: Page)
    ensures var fs := PageFiles(p);
      && |fs| == |p.contents| + |p.commonPrefixes|
      && (forall i :: 0 <= i < |p.contents| ==> !fs[i].isDir && fs[i] == ObjectFile(p.contents[i]))
      && (forall i :: |p.contents| <= i < |fs| ==> fs[i].isDir && fs[i] == PrefixFile(p.commonPrefixes[i - |p.contents|]))
  {
  }

  /** The loop goes on only after a truncated page that names a next token. */
  predicate HasMore(p: Page) {
    BoolValue(p.isTruncated) && p.nextContinuationToken.Some?
  }

  function Request(c: Client, prefix: string, token: Option<string>): ListRequest {
    ListRequest(c.bucket, Delimiter, prefix, token)
  }

  /**
   * Following the continuation tokens from `token` reaches, within `fuel`
   * requests, a page that ends the listing or an error. The Go loop only
   * returns when this holds for some fuel.
   */
  predicate PaginationEnds(c: Client, prefix: string, token: Option<string>, fuel: nat)
    decreases fuel
  {
    fuel > 0 &&
    var response := c.api.listObjectsV2(Request(c, prefix, token));
    response.Failure? || !HasMore(response.value) ||
    PaginationEnds(c, prefix, response.value.nextContinuationToken, fuel - 1)
  }

  /** One request made to ListObjectsV2 and the answer it got. */
  datatype Exchange = Exchange(request: ListRequest, response: Result<Page, Error>)

  /** The requests listObjectsByPrefix makes, in order, with their answers. */
  function Conversation(c: Client, prefix: string, token: Option<string>, fuel: nat): (x: seq<Exchange>)
    requires PaginationEnds(c, prefix, token, fuel)
    ensures 1 <= |x| <= fuel
    decreases fuel
  {
    var request := Request(c, prefix, token);
    var response := c.api.listObjectsV2(request);
    if response.Failure? || !HasMore(response.value) then
      [Exchange(request, response)]
    else
      [Exchange(request, response)] + Conversation(c, prefix, response.value.nextContinuationToken, fuel - 1)
  }

  /**
   * The shape of the conversation: the first request carries `token` and each
   * later one the NextContinuationToken of the page before it; every request
   * asks for the same bucket, prefix and delimiter "/" and gets the API's
   * answer to it; every page but the last is truncated with a next token, and
   * the last answer is an error or a page that ends the listing, so nothing
   * is requested after it.
   */
  lemma {:induction false} ConversationShape(c: Client, prefix: string, token: Option<string>, fuel: nat)
    requires PaginationEnds(c, prefix, token, fuel)
    ensures var x := Conversation(c, prefix, token, fuel);
      && x[0].request.continuationToken == token
      && (forall i :: 0 <= i < |x| ==>
            && x[i].request.bucket == c.bucket
            && x[i].request.delimiter == "/"
            && x[i].request.prefix == prefix
            && x[i].response == c.api.listObjectsV2(x[i].request))
      && (forall i :: 0 <= i < |x| - 1 ==>
            && x[i].response.Success?
            && HasMore(x[i].response.value)
            && x[i + 1].request.continuationToken == x[i].response.value.nextContinuationToken)
      && (x[|x| - 1].response.Failure? || !HasMore(x[|x| - 1].response.value))
    decreases fuel
  {
    var x := Conversation(c, prefix, token, fuel);
    var response := c.api.listObjectsV2(Request(c, prefix, token));
    if !(response.Failure? || !HasMore(response.value)) {
      var next := response.value.nextContinuationToken;
      ConversationShape(c, prefix, next, fuel - 1);
      assert x[1..] == Conversation(c, prefix, next, fuel - 1);
    }
  }

  /** The listing a conversation yields: the first error, or all pages' files in order. */
  function Collect(x: seq<Exchange>): Result<seq<File>, Error> {
    if |x| == 0 then Success([])
    else if x[0].response.Failure? then Failure(x[0].response.error)
    else Prepend(PageFiles(x[0].response.value), Collect(x[1..]))
  }

  function Prepend(fs: seq<File>, r: Result<seq<File>, Error>): Result<seq<File>, Error> {
    if r.Failure? then r else Success(fs + r.value)
  }

  lemma PrependTwice(fs: seq<File>, gs: seq<File>, r: Result<seq<File>, Error>)
    ensures Prepend(fs, Prepend(gs, r)) == Prepend(fs + gs, r)
  {
    if r.Success? {
      assert fs + (gs + r.value) == (fs + gs) + r.value;
    }
  }

  /** Every request of the conversation got a page. */
  predicate AllAnswered(x: seq<Exchange>) {
    forall i :: 0 <= i < |x| ==> x[i].response.Success?
  }

  lemma AllAnsweredTail(x: seq<Exchange>)
    requires |x| > 0 && AllAnswered(x)
    ensures x[0].response.Success? && AllAnswered(x[1..])
  {
    forall i | 0 <= i < |x| - 1 ensures x[1..][i].response.Success? {
      assert x[1..][i] == x[i + 1];
    }
  }

  /** The number of entries on the first k pages. */
  function CountBefore(x: seq<Exchange>, k: nat): nat
    requires k <= |x| && AllAnswered(x)
  {
    if k == 0 then 0
    else
      AllAnsweredTail(x);
      |PageFiles(x[0].response.value)| + CountBefore(x[1..], k - 1)
  }

  /** When every request is answered the listing succeeds, with one entry per object and prefix. */
  lemma {:induction false} CollectLength(x: seq<Exchange>)
    requires AllAnswered(x)
    ensures Collect(x).Success?
    ensures |Collect(x).value| == CountBefore(x, |x|)
  {
    if |x| > 0 {
      AllAnsweredTail(x);
      CollectLength(x[1..]);
    }
  }

  /** One answered page in front of the rest. */
  lemma CollectStep(x: seq<Exchange>)
    requires |x| > 0 && AllAnswered(x)
    ensures AllAnswered(x[1..]) && Collect(x).Success? && Collect(x[1..]).Success?
    ensures Collect(x).value == PageFiles(x[0].response.value) + Collect(x[1..]).value
  {
    AllAnsweredTail(x);
    CollectLength(x[1..]);
  }

  lemma CountBeforeStep(x: seq<Exchange>, i: nat)
    requires 0 < i <= |x| && AllAnswered(x)
    ensures AllAnswered(x[1..])
    ensures CountBefore(x, i) == |PageFiles(x[0].response.value)| + CountBefore(x[1..], i - 1)
  {
    AllAnsweredTail(x);
  }

  /** The files of the first page open the listing. */
  lemma CollectFirstPage(x: seq<Exchange>, j: nat)
    requires |x| > 0 && AllAnswered(x) && j < |PageFiles(x[0].response.value)|
    ensures Collect(x).Success? && j < |Collect(x).value|
    ensures Collect(x).value[j] == PageFiles(x[0].response.value)[j]
  {
    CollectStep(x);
  }

  /** After the first page, the listing continues with the rest of the conversation's. */
  lemma CollectLaterPage(x: seq<Exchange>, k: nat)
    requires |x| > 0 && AllAnswered(x)
    requires AllAnswered(x[1..]) && Collect(x[1..]).Success? && k < |Collect(x[1..]).value|
    ensures Collect(x).Success? && |PageFiles(x[0].response.value)| + k < |Collect(x).value|
    ensures Collect(x).value[|PageFiles(x[0].response.value)| + k] == Collect(x[1..]).value[k]
  {
    CollectStep(x);
  }

  /**
   * The listing is the pages' files end to end: the j-th file of page i sits
   * at CountBefore(x, i) + j.
   */
  lemma {:induction false} CollectConcatenates(x: seq<Exchange>, i: nat, j: nat)
    requires AllAnswered(x)
    requires i < |x| && j < |PageFiles(x[i].response.value)|
    ensures Collect(x).Success?
    ensures CountBefore(x, i) + j < |Collect(x).value|
    ensures Collect(x).value[CountBefore(x, i) + j] == PageFiles(x[i].response.value)[j]
  {
    if i == 0 {
      CollectFirstPage(x, j);
    } else {
      var rest := x[1..];
      AllAnsweredTail(x);
      assert rest[i - 1] == x[i];
      CollectConcatenates(rest, i - 1, j);
      CountBeforeStep(x, i);
      CollectLaterPage(x, CountBefore(rest, i - 1) + j);
    }
  }

  /** A failed request makes the whole listing fail with that error; earlier pages are dropped. */
  lemma {:induction false} CollectFails(x: seq<Exchange>, k: nat)
    requires k < |x| && x[k].response.Failure?
    requires forall i :: 0 <= i < k ==> x[i].response.Success?
    ensures Collect(x) == Failure(x[k].response.error)
  {
    if k > 0 {
      CollectFails(x[1..], k - 1);
    }
  }

  /** listObjectsByPrefix, as a function of the path: the conversation it has, collected. */
  function Listing(c: Client, path: string, fuel: nat): Result<seq<File>, Error>
    requires PaginationEnds(c, Strings.TrimPrefix(path, "/"), None, fuel)
  {
    Collect(Conversation(c, Strings.TrimPrefix(path, "/"), None, fuel))
  }

  /** One round of the loop: what the remaining conversation yields after the next answer. */
  lemma ConversationStep(c: Client, prefix: string, token: Option<string>, fuel: nat)
    requires PaginationEnds(c, prefix, token, fuel)
    ensures var response := c.api.listObjectsV2(Request(c, prefix, token));
      Collect(Conversation(c, prefix, token, fuel)) ==
        if response.Failure? then Failure(response.error)
        else if !HasMore(response.value) then Success(PageFiles(response.value))
        else Prepend(PageFiles(response.value),
                     Collect(Conversation(c, prefix, response.value.nextContinuationToken, fuel - 1)))
  {
    var x := Conversation(c, prefix, token, fuel);
    var response := c.api.listObjectsV2(Request(c, prefix, token));
    if response.Success? {
      if !HasMore(response.value) {
        assert x[1..] == [];
        assert PageFiles(response.value) + [] == PageFiles(response.value);
      } else {
        assert x[1..] == Conversation(c, prefix, response.value.nextContinuationToken, fuel - 1);
      }
    }
  }

  /**
   * listObjectsByPrefix: strips one leading "/" from the path and pages
   * through ListObjectsV2 from no token, appending each page's objects and
   * then its common prefixes; the first error discards everything.
   */
  method ListObjectsByPrefix(c: Client, path: string, ghost fuel: nat) returns (r: Result<seq<File>, Error>)
    requires PaginationEnds(c, Strings.TrimPrefix(path, "/"), None, fuel)
    ensures r == Listing(c, path, fuel)
  {
    var token: Option<string> := None;
    var files: seq<File> := [];
    var key := Strings.TrimPrefix(path, "/");
    ghost var left := fuel;
    assert Listing(c, path, fuel).Success? ==> [] + Listing(c, path, fuel).value == Listing(c, path, fuel).value;
    while true
      invariant PaginationEnds(c, key, token, left)
      invariant Listing(c, path, fuel) == Prepend(files, Collect(Conversation(c, key, token, left)))
      decreases left
    {
      ConversationStep(c, key, token, left);
      var output := c.api.listObjectsV2(ListRequest(c.bucket, Delimiter, key, token));
      if output.Failure? {
        return Failure(output.error);
      }
      var page := output.value;
      ghost var before := files;
      files := AppendObjects(files, page.contents);
      files := AppendPrefixes(files, page.commonPrefixes);
      assert files == before + PageFiles(page);
      if !BoolValue(page.isTruncated) || page.nextContinuationToken.None? {
        return Success(files);
      }
      PrependTwice(before, PageFiles(page), Collect(Conversation(c, key, page.nextContinuationToken, left - 1)));
      token := page.nextContinuationToken;
      left := left - 1;
    }
  }

  /** The first inner loop: each object of the page appended as a file. */
  method AppendObjects(files: seq<File>, contents: seq<ObjectInfo>) returns (r: seq<File>)
    ensures r == files + ObjectFiles(contents)
  {
    r := files;
    for i := 0 to |contents|
      invariant r == files + ObjectFiles(contents[..i])
    {
      assert contents[..i + 1][..i] == contents[..i];
      r := r + [ObjectFile(contents[i])];
    }
    assert contents[..|contents|] == contents;
  }

  /** The second inner loop: each common prefix of the page appended as a directory. */
  method AppendPrefixes(files: seq<File>, prefixes: seq<Option<string>>) returns (r: seq<File>)
    ensures r == files + PrefixFiles(prefixes)
  {
    r := files;
    for i := 0 to |prefixes|
      invariant r == files + PrefixFiles(prefixes[..i])
    {
      assert prefixes[..i + 1][..i] == prefixes[..i];
      r := r + [PrefixFile(prefixes[i])];
    }
    assert prefixes[..|prefixes|] == prefixes;
  }

  /** getPreSignedLink: a GetObject request for `key` in the bucket, pre-signed for `duration`. */
  function GetPreSignedLink(c: Client, key: string, duration: Duration): Result<string, Error> {
    c.api.presign(PresignRequest(c.bucket, key, duration))
  }
}
