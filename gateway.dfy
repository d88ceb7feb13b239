/**
 * The request handler and the logging wrapper around it. A path ending in
 * "/" is a directory: it is listed and rendered as a page. Any other path is
 * an object: it is signed and the client is sent there with a permanent
 * redirect. withLogging records the status the handler reports through
 * WriteHeader and logs it once the handler returns.
 */
module Gateway {
  import opened Wrappers
  import opened Strings
  import opened Storage
  import opened Render
  import Http

  /** What the client receives and the status withLogging logs for it. */
  datatype Outcome = Outcome(reply: Http.Reply, logged: int)

  /** http.Error(w, message, 500) on a writer nothing was sent on yet. */
  function ErrorReply(message: string): Http.Reply {
    Http.Reply(Http.StatusInternalServerError, Http.ErrorHeader(map[]), message + "\n")
  }

  function FailureOutcome(e: Error): (o: Outcome)
    ensures o.reply.status == o.logged == Http.StatusInternalServerError
  {
    Outcome(ErrorReply(e.message), Http.StatusInternalServerError)
  }

  /** A directory page: 200, HTML, nothing reported through WriteHeader. */
  function PageOutcome(page: string): (o: Outcome)
    ensures o.reply.status == o.logged == Http.StatusOK
  {
    Outcome(Http.Reply(Http.StatusOK, map["Content-Type" := Http.HtmlType], page), Http.StatusOK)
  }

  /** An object: a permanent redirect to its pre-signed URL, or the signing error. */
  function ObjectOutcome(c: Client, path: string): (o: Outcome)
    ensures o.reply.status == Http.StatusPermanentRedirect <==> GetPreSignedLink(c, path, LinkTTL).Success?
    ensures GetPreSignedLink(c, path, LinkTTL).Success? ==>
      o.reply.header == map["Location" := GetPreSignedLink(c, path, LinkTTL).value]
    ensures GetPreSignedLink(c, path, LinkTTL).Failure? ==> o == FailureOutcome(GetPreSignedLink(c, path, LinkTTL).error)
  {
    var signed := GetPreSignedLink(c, path, LinkTTL);
    if signed.Failure? then FailureOutcome(signed.error)
    else Outcome(Http.Reply(Http.StatusPermanentRedirect, map["Location" := signed.value], ""), Http.StatusPermanentRedirect)
  }

  lemma DirectoryPath(path: string)
    requires HasSuffix(path, "/")
    ensures '/' in path
  {
    assert path[|path| - 1] == '/';
  }

  /**
   * A listed directory as main.go serves it, with entries in the order
   * `shown`: on a signing error the page's opening is already out with
   * status 200, and http.Error can only append its message, while the 500
   * it passes to WriteHeader is what withLogging records.
   */
  function ListedOutcomeAsWritten(c: Client, fmts: Formats, path: string, shown: seq<File>): Outcome
    requires HasSuffix(path, "/")
  {
    DirectoryPath(path);
    var linked := Linked(c, shown, Layout(shown, fmts));
    if linked.Success? then PageOutcome(Prelude(path) + (linked.value + "\n</pre>\n"))
    else
      Outcome(Http.Reply(Http.StatusOK, map["Content-Type" := Http.HtmlType], Prelude(path) + (linked.error.message + "\n")),
              Http.StatusInternalServerError)
  }

  /** As written, a listed directory always reaches the client with status 200 and the page's opening. */
  lemma AsWrittenAlwaysOK(c: Client, fmts: Formats, path: string, shown: seq<File>)
    requires HasSuffix(path, "/")
    ensures '/' in path
    ensures var o := ListedOutcomeAsWritten(c, fmts, path, shown);
      o.reply.status == Http.StatusOK && HasPrefix(o.reply.body, Prelude(path))
  {
    DirectoryPath(path);
  }

  /** A listed directory, corrected: the whole page with row-bound links, or a clean error reply. */
  function ListedOutcome(c: Client, fmts: Formats, path: string, shown: seq<File>): Outcome
    requires HasSuffix(path, "/")
  {
    DirectoryPath(path);
    var page := RenderPage(c, fmts, path, shown);
    if page.Success? then PageOutcome(page.value) else FailureOutcome(page.error)
  }

  /** As written, the logged status is wrong exactly when a link cannot be signed. */
  lemma AsWrittenLogsWrongStatus(c: Client, fmts: Formats, path: string, shown: seq<File>)
    requires HasSuffix(path, "/")
    ensures var o := ListedOutcomeAsWritten(c, fmts, path, shown);
      o.logged != o.reply.status <==> Linked(c, shown, Layout(shown, fmts)).Failure?
  {
  }

  /**
   * A root listing holding one file that cannot be signed: the client gets
   * 200 and the page's opening followed by the error text; the log says 500.
   */
  lemma UnsignedFileExample(c: Client, fmts: Formats, f: File)
    requires !f.isDir && GetPreSignedLink(c, f.name, LinkTTL).Failure?
    ensures var o := ListedOutcomeAsWritten(c, fmts, "/", [f]);
      && o.reply == Http.Reply(Http.StatusOK, map["Content-Type" := Http.HtmlType],
                               "<pre>\n/\n\n" + SignError(f.name, GetPreSignedLink(c, f.name, LinkTTL).error).message + "\n")
      && o.logged == Http.StatusInternalServerError
  {
    assert "<pre>\n" + ("/" + "\n\n") + "" == "<pre>\n/\n\n";
  }

  /** Corrected, every reply is logged with the status the client received. */
  lemma LoggedStatusIsSent(c: Client, fmts: Formats, path: string, shown: seq<File>)
    ensures HasSuffix(path, "/") ==> ListedOutcome(c, fmts, path, shown).logged == ListedOutcome(c, fmts, path, shown).reply.status
    ensures ObjectOutcome(c, path).logged == ObjectOutcome(c, path).reply.status
  {
  }

  /**
   * Corrected, a page is served exactly when every link is signed, and a
   * failed page is reported with the error the as-written handler reports.
   */
  lemma ListedOutcomeErrors(c: Client, fmts: Formats, path: string, shown: seq<File>)
    requires HasSuffix(path, "/")
    ensures var linked := Linked(c, shown, Layout(shown, fmts));
      && (ListedOutcome(c, fmts, path, shown).reply.status == Http.StatusOK <==> AllSigned(c, shown))
      && (linked.Failure? ==> ListedOutcome(c, fmts, path, shown) == FailureOutcome(linked.error))
  {
    LinkRowsSameErrors(c, fmts, shown, Layout(shown, fmts));
    LinkRowsSucceeds(c, fmts, shown);
  }

  /** Where no name occurs before its own row, the corrected handler serves the page the as-written one does. */
  lemma ListedOutcomeAgrees(c: Client, fmts: Formats, path: string, shown: seq<File>)
    requires HasSuffix(path, "/") && FirstAtOwnRow(c, fmts, shown, "") && AllSigned(c, shown)
    ensures ListedOutcome(c, fmts, path, shown) == ListedOutcomeAsWritten(c, fmts, path, shown)
  {
    SubstitutionAgrees(c, fmts, shown);
    LinkedSucceeds(c, shown, Layout(shown, fmts));
    DirectoryPath(path);
  }

  /** A recorder withLogging has just made around a writer the server has just made. */
  ghost predicate Ready(w: Http.StatusRecorder)
    reads w, w.inner
  {
    w.Valid() && w.codes == [] && w.inner.Unused()
  }

  /** The reply on the server's writer and the status the recorder holds are those of `o`. */
  predicate Reached(w: Http.StatusRecorder, o: Outcome)
    reads w, w.inner
  {
    w.inner.Sent(o.reply) && w.statusCode == o.logged
  }

  /** The listed entries in an array, as the slice renderFileList receives. */
  method ToArray(s: seq<File>) returns (a: array<File>)
    ensures fresh(a) && a[..] == s
  {
    a := new File[|s|](i requires 0 <= i < |s| => s[i]);
  }

  /** The object branch: sign the path and redirect there, or report the signing error. */
  method ServeObject(c: Client, w: Http.StatusRecorder, path: string)
    requires Ready(w)
    modifies w, w.inner
    ensures w.Valid() && Reached(w, ObjectOutcome(c, path))
  {
    var signed := GetPreSignedLink(c, path, LinkTTL);
    if signed.Failure? {
      Http.Error(w, signed.error.message, Http.StatusInternalServerError);
      return;
    }
    Http.Redirect(w, signed.value, Http.StatusPermanentRedirect);
  }

  /** The directory branch when the listing failed. */
  method ServeListingError(w: Http.StatusRecorder, e: Error)
    requires Ready(w)
    modifies w, w.inner
    ensures w.Valid() && Reached(w, FailureOutcome(e))
  {
    Http.Error(w, e.message, Http.StatusInternalServerError);
  }

  /** The directory branch of main.go after a successful listing: render, and report a render error. */
  method ServeListedAsWritten(c: Client, fmts: Formats, w: Http.StatusRecorder, path: string, files: seq<File>)
    returns (ghost shown: seq<File>)
    requires Ready(w) && HasSuffix(path, "/")
    modifies w, w.inner
    ensures w.Valid() && SortedByName(shown) && multiset(shown) == multiset(files)
    ensures Reached(w, ListedOutcomeAsWritten(c, fmts, path, shown))
  {
    DirectoryPath(path);
    var list := ToArray(files);
    var err := RenderFileList(c, fmts, w, path, list);
    shown := list[..];
    var linked := Linked(c, shown, Layout(shown, fmts));
    var html := map["Content-Type" := Http.HtmlType];
    assert map[]["Content-Type" := Http.HtmlType] == html;
    var prelude := Prelude(path);
    assert "" + prelude == prelude;
    if err.Some? {
      assert prelude + "" == prelude;
      Http.Error(w, err.value.message, Http.StatusInternalServerError);
      assert prelude + err.value.message + "\n" == prelude + (err.value.message + "\n");
    } else {
      assert linked.Success?;
    }
  }

  /** The directory branch after a successful listing, corrected. */
  method ServeListed(c: Client, fmts: Formats, w: Http.StatusRecorder, path: string, files: seq<File>)
    returns (ghost shown: seq<File>)
    requires Ready(w) && HasSuffix(path, "/")
    modifies w, w.inner
    ensures w.Valid() && SortedByName(shown) && multiset(shown) == multiset(files)
    ensures Reached(w, ListedOutcome(c, fmts, path, shown))
  {
    DirectoryPath(path);
    var list := ToArray(files);
    var err := RenderFileListBuffered(c, fmts, w, path, list);
    shown := list[..];
    if err.Some? {
      assert w.inner.Unused();
      Http.Error(w, err.value.message, Http.StatusInternalServerError);
      assert w.inner.body == err.value.message + "\n";
    } else {
      assert map[]["Content-Type" := Http.HtmlType] == map["Content-Type" := Http.HtmlType];
      assert w.inner.body == RenderPage(c, fmts, path, shown).value;
    }
  }

  /**
   * The handler from buildHandler as main.go writes it, run on a fresh
   * writer. `shown` is the order renderFileList sorted the entries into.
   */
  method ServeAsWritten(c: Client, fmts: Formats, w: Http.StatusRecorder, path: string, ghost fuel: nat)
    returns (ghost shown: seq<File>)
    requires Ready(w)
    requires HasSuffix(path, "/") ==> PaginationEnds(c, TrimPrefix(path, "/"), None, fuel)
    modifies w, w.inner
    ensures w.Valid()
    ensures HasSuffix(path, "/") ==>
      var listing := Listing(c, path, fuel);
      && (listing.Failure? ==> Reached(w, FailureOutcome(listing.error)))
      && (listing.Success? ==>
            && SortedByName(shown) && multiset(shown) == multiset(listing.value)
            && Reached(w, ListedOutcomeAsWritten(c, fmts, path, shown)))
    ensures !HasSuffix(path, "/") ==> Reached(w, ObjectOutcome(c, path))
  {
    shown := [];
    if HasSuffix(path, "/") {
      var listing := ListObjectsByPrefix(c, path, fuel);
      if listing.Failure? {
        ServeListingError(w, listing.error);
      } else {
        shown := ServeListedAsWritten(c, fmts, w, path, listing.value);
      }
    } else {
      ServeObject(c, w, path);
    }
  }

  /** The handler, corrected: the page is buffered and rows are linked by position. */
  method Serve(c: Client, fmts: Formats, w: Http.StatusRecorder, path: string, ghost fuel: nat)
    returns (ghost shown: seq<File>)
    requires Ready(w)
    requires HasSuffix(path, "/") ==> PaginationEnds(c, TrimPrefix(path, "/"), None, fuel)
    modifies w, w.inner
    ensures w.Valid()
    ensures HasSuffix(path, "/") ==>
      var listing := Listing(c, path, fuel);
      && (listing.Failure? ==> Reached(w, FailureOutcome(listing.error)))
      && (listing.Success? ==>
            && SortedByName(shown) && multiset(shown) == multiset(listing.value)
            && Reached(w, ListedOutcome(c, fmts, path, shown)))
    ensures !HasSuffix(path, "/") ==> Reached(w, ObjectOutcome(c, path))
  {
    shown := [];
    if HasSuffix(path, "/") {
      var listing := ListObjectsByPrefix(c, path, fuel);
      if listing.Failure? {
        ServeListingError(w, listing.error);
      } else {
        shown := ServeListed(c, fmts, w, path, listing.value);
      }
    } else {
      ServeObject(c, w, path);
    }
  }

  /**
   * withLogging around the corrected handler, on the writer the server made
   * for the request: the status it logs is the status the client received.
   */
  method WithLogging(c: Client, fmts: Formats, inner: Http.ResponseWriter, path: string, ghost fuel: nat)
    returns (logged: int, ghost shown: seq<File>)
    requires inner.Unused()
    requires HasSuffix(path, "/") ==> PaginationEnds(c, TrimPrefix(path, "/"), None, fuel)
    modifies inner
    ensures inner.wroteHeader && logged == inner.status
    ensures HasSuffix(path, "/") ==>
      var listing := Listing(c, path, fuel);
      && (listing.Failure? ==> inner.Sent(FailureOutcome(listing.error).reply))
      && (listing.Success? ==>
            && SortedByName(shown) && multiset(shown) == multiset(listing.value)
            && inner.Sent(ListedOutcome(c, fmts, path, shown).reply))
    ensures !HasSuffix(path, "/") ==> inner.Sent(ObjectOutcome(c, path).reply)
  {
    var ww := new Http.StatusRecorder(inner);
    shown := Serve(c, fmts, ww, path, fuel);
    LoggedStatusIsSent(c, fmts, path, shown);
    logged := ww.statusCode;
  }
}
