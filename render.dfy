/**
 * renderFileList: the directory page. Entries are sorted by name, the page
 * opens with the path and (below the root) a ".." link, each entry becomes a
 * row, and each entry's name is then turned into a link: "/" + name for a
 * directory, a pre-signed URL for a file.
 *
 * Rows are sequences of cells. text/tabwriter pads every tab-terminated cell
 * to its column's width plus one space; the model puts exactly one space
 * between cells. It does not split a name at a '\t', '\v' or '\f' inside it,
 * as tabwriter would, so for names without those characters every cell's
 * text and order are kept.
 */
module Render {
  import opened Wrappers
  import opened Strings
  import opened Humanize
  import opened Storage
  import Http

  /** The two library formatters the page uses: RFC 3339 time and `%.2f` of b / div. */
  datatype Formats = Formats(rfc3339: Time -> string, twoDecimals: (int, int) -> string)

  // ---------------------------------------------------------------- sorting

  /** Non-decreasing in Go's byte order of names. */
  predicate SortedByName(s: seq<File>) {
    forall i, j :: 0 <= i < j < |s| ==> NotAfter(s[i].name, s[j].name)
  }

  /**
   * sort.Slice(list, by name): in place; Go's sort is not stable, so the
   * order of entries with equal names is not fixed.
   */
  method SortByName(a: array<File>)
    modifies a
    ensures SortedByName(a[..])
    ensures multiset(a[..]) == multiset(old(a[..]))
  {
    for i := 0 to a.Length
      invariant forall p, q :: 0 <= p < q < i ==> NotAfter(a[p].name, a[q].name)
      invariant multiset(a[..]) == multiset(old(a[..]))
    {
      Insert(a, i);
    }
  }

  /** Moves a[i] down into the sorted prefix a[..i]. */
  method Insert(a: array<File>, i: int)
    requires 0 <= i < a.Length
    requires forall p, q :: 0 <= p < q < i ==> NotAfter(a[p].name, a[q].name)
    modifies a
    ensures forall p, q :: 0 <= p < q <= i ==> NotAfter(a[p].name, a[q].name)
    ensures multiset(a[..]) == multiset(old(a[..]))
  {
    var j := i;
    while j > 0 && Less(a[j].name, a[j - 1].name)
      invariant 0 <= j <= i
      invariant forall p, q :: 0 <= p < q <= i && p != j && q != j ==> NotAfter(a[p].name, a[q].name)
      invariant forall q :: j < q <= i ==> NotAfter(a[j].name, a[q].name)
      invariant multiset(a[..]) == multiset(old(a[..]))
    {
      LessAsymmetric(a[j].name, a[j - 1].name);
      a[j - 1], a[j] := a[j], a[j - 1];
      j := j - 1;
    }
    forall p | 0 <= p < j
      ensures NotAfter(a[p].name, a[j].name)
    {
      if p < j - 1 {
        NotAfterTransitive(a[p].name, a[j - 1].name, a[j].name);
      }
    }
  }

  // ---------------------------------------------------------------- header

  /**
   * The href of the ".." link: none at the root "/"; otherwise the path
   * cut just before its last "/", followed by "/..".
   */
  function UpLink(path: string): (r: Option<string>)
    requires '/' in path
    ensures r.None? <==> path == "/"
    ensures r.Some? ==>
      && |r.value| >= 3
      && r.value[|r.value| - 3..] == "/.."
      && var cut := r.value[..|r.value| - 3];
         |cut| < |path| && HasPrefix(path, cut) && path[|cut|] == '/' &&
         forall k :: |cut| < k < |path| ==> path[k] != '/'
  {
    if path == "/" then None
    else
      var cut := path[..LastIndex(path, '/')];
      assert cut + "/.." == path[..LastIndex(path, '/')] + "/..";
      Some(cut + "/..")
  }

  /** For a directory path ending in "/", the ".." link points at the path without its final "/", plus "/..". */
  lemma UpLinkOfDirectory(path: string)
    requires HasSuffix(path, "/") && path != "/"
    ensures '/' in path && UpLink(path) == Some(path[..|path| - 1] + "/..")
  {
    assert path[|path| - 1] == '/';
  }

  lemma UpLinkExamples()
    ensures UpLink("/") == None
    ensures UpLink("/photos/") == Some("/photos/..")
  {
    UpLinkOfDirectory("/photos/");
    assert "/photos/"[..7] + "/.." == "/photos/..";
  }

  /** What the page shows before the rows: "<pre>", the path, and the ".." link below the root. */
  function Prelude(path: string): string
    requires '/' in path
  {
    "<pre>\n" + (path + "\n\n") +
    (if path == "/" then "" else "<a href=\"" + UpLink(path).value + "\">..</a>\n")
  }

  /** The page opens with "<pre>" and the path; only below the root does a ".." link follow. */
  lemma PreludeShape(path: string)
    requires '/' in path
    ensures HasPrefix(Prelude(path), "<pre>\n" + path + "\n\n")
    ensures path == "/" ==> Prelude(path) == "<pre>\n/\n\n"
    ensures path != "/" ==> HasSuffix(Prelude(path), "<a href=\"" + UpLink(path).value + "\">..</a>\n")
  {
    var head := "<pre>\n" + (path + "\n\n");
    assert "<pre>\n" + path + "\n\n" == head;
    if path == "/" {
      assert Prelude(path) == head + "";
    }
  }

  // ---------------------------------------------------------------- rows

  /** A directory shows only its name (two empty tab-terminated cells and an empty last cell follow); a file its name, time and size. */
  function Cells(f: File, fmts: Formats): (r: seq<string>)
    ensures |r| == (if f.isDir then 4 else 3) && r[0] == f.name
  {
    if f.isDir then [f.name, "", "", ""]
    else [f.name, fmts.rfc3339(f.lastModified), HumanizedText(f.size, fmts.twoDecimals)]
  }

  function JoinCells(cells: seq<string>): (r: string)
    requires |cells| > 0
    ensures HasPrefix(r, cells[0])
  {
    if |cells| == 1 then cells[0] else cells[0] + " " + JoinCells(cells[1..])
  }

  /** One row of the listing, as text. */
  function Line(f: File, fmts: Formats): (r: string)
    ensures HasPrefix(r, f.name)
  {
    JoinCells(Cells(f, fmts)) + "\n"
  }

  /** The text the rows make, in list order, before any link is added. */
  function Layout(list: seq<File>, fmts: Formats): string {
    if |list| == 0 then "" else Line(list[0], fmts) + Layout(list[1..], fmts)
  }

  /** The rows of two consecutive runs of entries are the rows of the first, then those of the second. */
  lemma {:induction false} LayoutAppend(a: seq<File>, b: seq<File>, fmts: Formats)
    ensures Layout(a + b, fmts) == Layout(a, fmts) + Layout(b, fmts)
    decreases |a|
  {
    if |a| == 0 {
      assert a + b == b;
    } else {
      assert (a + b)[1..] == a[1..] + b;
      LayoutAppend(a[1..], b, fmts);
    }
  }

  /** A row is its cells in order: dir rows "name   ", file rows "name time size". */
  lemma RowText(f: File, fmts: Formats)
    ensures f.isDir ==> Line(f, fmts) == f.name + "   \n"
    ensures !f.isDir ==>
      Line(f, fmts) == f.name + " " + fmts.rfc3339(f.lastModified) + " " + HumanizedText(f.size, fmts.twoDecimals) + "\n"
  {
    var cells := Cells(f, fmts);
    if f.isDir {
      assert JoinCells(cells[1..][1..][1..]) == "";
      assert JoinCells(cells[1..][1..]) == "" + " " + "";
      assert JoinCells(cells[1..]) == "" + " " + ("" + " " + "");
    } else {
      assert JoinCells(cells[1..][1..]) == cells[2];
      assert JoinCells(cells[1..]) == cells[1] + " " + cells[2];
    }
  }

  // ---------------------------------------------------------------- links

  function Anchor(link: string, name: string): string {
    "<a href=\"" + link + "\">" + name + "</a>"
  }

  /** The error renderFileList returns when signing a file's link fails. */
  function SignError(name: string, e: Error): (r: Error)
    ensures HasPrefix(r.message, "error getting presigned link for " + name + ": ")
    ensures HasSuffix(r.message, e.message)
  {
    Error("error getting presigned link for " + name + ": " + e.message)
  }

  /** The link target: "/" + name for a directory, a five-minute pre-signed URL for a file. */
  function LinkTarget(c: Client, f: File): (r: Result<string, Error>)
    ensures f.isDir ==> r == Success("/" + f.name)
    ensures !f.isDir ==> (r.Success? <==> GetPreSignedLink(c, f.name, LinkTTL).Success?)
    ensures !f.isDir && r.Success? ==> r.value == GetPreSignedLink(c, f.name, LinkTTL).value
    ensures !f.isDir && r.Failure? ==> r.error == SignError(f.name, GetPreSignedLink(c, f.name, LinkTTL).error)
  {
    if f.isDir then Success("/" + f.name)
    else
      var signed := GetPreSignedLink(c, f.name, LinkTTL);
      if signed.Failure? then Failure(SignError(f.name, signed.error)) else Success(signed.value)
  }

  /**
   * The substitution loop of renderFileList: for each entry in order, the
   * first occurrence of its name in the text so far becomes its anchor.
   */
  function Linked(c: Client, list: seq<File>, content: string): Result<string, Error>
    decreases |list|
  {
    if |list| == 0 then Success(content)
    else
      var link := LinkTarget(c, list[0]);
      if link.Failure? then Failure(link.error)
      else Linked(c, list[1..], ReplaceFirst(content, list[0].name, Anchor(link.value, list[0].name)))
  }

  /** The loop over `list` that reassigns `content`. */
  method LinkEntries(c: Client, list: seq<File>, content: string) returns (r: Result<string, Error>)
    ensures r == Linked(c, list, content)
  {
    var text := content;
    for i := 0 to |list|
      invariant Linked(c, list, content) == Linked(c, list[i..], text)
    {
      assert list[i..][1..] == list[i + 1..];
      var entry := list[i];
      var link: string;
      if entry.isDir {
        link := "/" + entry.name;
      } else {
        var signed := GetPreSignedLink(c, entry.name, LinkTTL);
        if signed.Failure? {
          return Failure(SignError(entry.name, signed.error));
        }
        link := signed.value;
      }
      text := ReplaceFirst(text, entry.name, Anchor(link, entry.name));
    }
    return Success(text);
  }

  /** Signing succeeds for every file entry. */
  predicate AllSigned(c: Client, list: seq<File>) {
    forall k :: 0 <= k < |list| ==> LinkTarget(c, list[k]).Success?
  }

  /** When every file's link can be signed, linking succeeds. */
  lemma {:induction false} LinkedSucceeds(c: Client, list: seq<File>, content: string)
    requires AllSigned(c, list)
    ensures Linked(c, list, content).Success?
    decreases |list|
  {
    if |list| > 0 {
      var link := LinkTarget(c, list[0]).value;
      assert AllSigned(c, list[1..]) by {
        forall k | 0 <= k < |list| - 1 ensures LinkTarget(c, list[1..][k]).Success? {
          assert list[1..][k] == list[k + 1];
        }
      }
      LinkedSucceeds(c, list[1..], ReplaceFirst(content, list[0].name, Anchor(link, list[0].name)));
    }
  }

  /**
   * When signing fails for a file entry and for no entry before it, the
   * whole render fails with the error naming that entry.
   */
  lemma {:induction false} LinkedFails(c: Client, list: seq<File>, content: string, k: nat)
    requires k < |list| && !list[k].isDir
    requires GetPreSignedLink(c, list[k].name, LinkTTL).Failure?
    requires forall i :: 0 <= i < k ==> LinkTarget(c, list[i]).Success?
    ensures Linked(c, list, content) ==
      Failure(SignError(list[k].name, GetPreSignedLink(c, list[k].name, LinkTTL).error))
    decreases k
  {
    if k > 0 {
      var link := LinkTarget(c, list[0]).value;
      var tail := list[1..];
      forall i | 0 <= i < k - 1 ensures LinkTarget(c, tail[i]).Success? {
        assert tail[i] == list[i + 1];
      }
      LinkedFails(c, tail, ReplaceFirst(content, list[0].name, Anchor(link, list[0].name)), k - 1);
    }
  }

  // ---------------------------------------------------------------- links bound to rows

  function PrependText(t: string, r: Result<string, Error>): Result<string, Error> {
    if r.Failure? then r else Success(t + r.value)
  }

  lemma PrependTextTwice(a: string, b: string, r: Result<string, Error>)
    ensures PrependText(a + b, r) == PrependText(a, PrependText(b, r))
  {
    if r.Success? {
      assert a + b + r.value == a + (b + r.value);
    }
  }

  /** An entry's row with its leading name wrapped in its anchor. */
  function LinkedLine(f: File, link: string, fmts: Formats): string {
    Anchor(link, f.name) + Line(f, fmts)[|f.name|..]
  }

  /** A row starts with its entry's name, so replacing the first occurrence within the row wraps exactly that name. */
  lemma LinkedLineIsOwnReplacement(f: File, link: string, fmts: Formats)
    ensures LinkedLine(f, link, fmts) == ReplaceFirst(Line(f, fmts), f.name, Anchor(link, f.name))
  {
    var line := Line(f, fmts);
    assert line + "" == line;
    ReplaceLeading(line, line, "", f.name, Anchor(link, f.name));
  }

  /**
   * Links bound to rows: every row's own leading name becomes its anchor,
   * whatever the other rows contain. This is the substitution the page means.
   */
  function LinkRows(c: Client, fmts: Formats, list: seq<File>): Result<string, Error>
    decreases |list|
  {
    if |list| == 0 then Success("")
    else
      var link := LinkTarget(c, list[0]);
      if link.Failure? then Failure(link.error)
      else PrependText(LinkedLine(list[0], link.value, fmts), LinkRows(c, fmts, list[1..]))
  }

  /** Row-bound linking fails exactly when the as-written loop fails, with the same error. */
  lemma {:induction false} LinkRowsSameErrors(c: Client, fmts: Formats, list: seq<File>, content: string)
    ensures LinkRows(c, fmts, list).Failure? <==> Linked(c, list, content).Failure?
    ensures LinkRows(c, fmts, list).Failure? ==> LinkRows(c, fmts, list).error == Linked(c, list, content).error
    decreases |list|
  {
    if |list| > 0 {
      var link := LinkTarget(c, list[0]);
      if link.Success? {
        LinkRowsSameErrors(c, fmts, list[1..], ReplaceFirst(content, list[0].name, Anchor(link.value, list[0].name)));
      }
    }
  }

  /** Row-bound linking succeeds exactly when every file's link can be signed. */
  lemma {:induction false} LinkRowsSucceeds(c: Client, fmts: Formats, list: seq<File>)
    ensures LinkRows(c, fmts, list).Success? <==> AllSigned(c, list)
    decreases |list|
  {
    if |list| > 0 {
      LinkRowsSucceeds(c, fmts, list[1..]);
      assert AllSigned(c, list) <==> LinkTarget(c, list[0]).Success? && AllSigned(c, list[1..]) by {
        if LinkTarget(c, list[0]).Success? && AllSigned(c, list[1..]) {
          forall k | 0 <= k < |list| ensures LinkTarget(c, list[k]).Success? {
            if k > 0 {
              assert list[k] == list[1..][k - 1];
            }
          }
        }
        if AllSigned(c, list) {
          forall k | 0 <= k < |list| - 1 ensures LinkTarget(c, list[1..][k]).Success? {
            assert list[1..][k] == list[k + 1];
          }
        }
      }
    }
  }

  /**
   * At every step of the as-written loop, starting after the text `done`
   * already linked, the entry's name does not occur before its own row.
   */
  predicate FirstAtOwnRow(c: Client, fmts: Formats, list: seq<File>, done: string)
    decreases |list|
  {
    |list| > 0 ==>
      && (forall j: nat :: j < |done| ==> !OccursAt(done + Layout(list, fmts), list[0].name, j))
      && var link := LinkTarget(c, list[0]);
         link.Success? ==> FirstAtOwnRow(c, fmts, list[1..], done + LinkedLine(list[0], link.value, fmts))
  }

  /** Replacing the first occurrence, when none lies before the row, wraps the row's leading name. */
  lemma ReplaceInRow(text: string, done: string, line: string, rest: string, name: string, anchor: string)
    requires text == done + line + rest && HasPrefix(line, name)
    requires forall j: nat :: j < |done| ==> !OccursAt(text, name, j)
    ensures ReplaceFirst(text, name, anchor) == done + (anchor + line[|name|..]) + rest
  {
    var n := |done|;
    var tail := line[|name|..];
    assert OccursAt(text, name, n) by {
      assert text[n..n + |name|] == line[..|name|];
    }
    assert text[..n] == done;
    assert text[n + |name|..] == tail + rest by {
      assert text == done + (line + rest);
    }
    ReplaceFirstAt(text, name, anchor, n);
    assert done + anchor + (tail + rest) == done + (anchor + tail) + rest;
  }

  /** The leading name of the first row is the first occurrence of it. */
  lemma ReplaceLeading(text: string, line: string, rest: string, name: string, anchor: string)
    requires text == line + rest && HasPrefix(line, name)
    ensures ReplaceFirst(text, name, anchor) == anchor + line[|name|..] + rest
  {
    assert text[0..|name|] == line[..|name|] == name;
    assert OccursAt(text, name, 0);
    ReplaceFirstAt(text, name, anchor, 0);
    var tail := text[|name|..];
    assert tail == line[|name|..] + rest;
    assert ReplaceFirst(text, name, anchor) == text[..0] + anchor + tail;
    assert text[..0] + anchor == anchor;
  }

  lemma NotFirstAtOwnRowLater(c: Client, fmts: Formats, list: seq<File>, done: string)
    requires |list| > 0 && LinkTarget(c, list[0]).Success?
    requires !FirstAtOwnRow(c, fmts, list[1..], done + LinkedLine(list[0], LinkTarget(c, list[0]).value, fmts))
    ensures !FirstAtOwnRow(c, fmts, list, done)
  {
  }

  lemma {:induction false} SubstitutionAgreesFrom(c: Client, fmts: Formats, list: seq<File>, done: string)
    requires FirstAtOwnRow(c, fmts, list, done)
    ensures Linked(c, list, done + Layout(list, fmts)) == PrependText(done, LinkRows(c, fmts, list))
    decreases |list|
  {
    if |list| == 0 {
      assert done + "" == done;
    } else {
      var link := LinkTarget(c, list[0]);
      if link.Success? {
        var f := list[0];
        var line := Line(f, fmts);
        var rest := Layout(list[1..], fmts);
        var text := done + Layout(list, fmts);
        assert text == done + line + rest;
        assert forall j: nat :: j < |done| ==> !OccursAt(text, f.name, j);
        ReplaceInRow(text, done, line, rest, f.name, Anchor(link.value, f.name));
        var next := done + LinkedLine(f, link.value, fmts);
        assert Linked(c, list, text) == Linked(c, list[1..], next + rest);
        assert FirstAtOwnRow(c, fmts, list[1..], next);
        SubstitutionAgreesFrom(c, fmts, list[1..], next);
        var tail := LinkRows(c, fmts, list[1..]);
        assert LinkRows(c, fmts, list) == PrependText(LinkedLine(f, link.value, fmts), tail);
        PrependTextTwice(done, LinkedLine(f, link.value, fmts), tail);
      }
    }
  }

  /**
   * When no name occurs before its own row at its turn, the as-written
   * substitution gives exactly the row-bound page.
   */
  lemma SubstitutionAgrees(c: Client, fmts: Formats, list: seq<File>)
    requires FirstAtOwnRow(c, fmts, list, "")
    ensures Linked(c, list, Layout(list, fmts)) == LinkRows(c, fmts, list)
  {
    SubstitutionAgreesFrom(c, fmts, list, "");
    assert "" + Layout(list, fmts) == Layout(list, fmts);
    var r := LinkRows(c, fmts, list);
    if r.Success? {
      assert "" + r.value == r.value;
    }
  }

  /** The first row of the example below: "0", its time and "1 B". */
  lemma SmallFileRow(f: File, fmts: Formats)
    requires f.name == "0" && !f.isDir && f.size == 1
    ensures Line(f, fmts) == "0" + (" " + fmts.rfc3339(f.lastModified) + " 1 B\n")
  {
    RowText(f, fmts);
    assert HumanizedText(1, fmts.twoDecimals) == "1 B";
  }

  /** In `"0 " + ts + " 1 B\n"` linked or not, a "1" sits at `|ts| + 3` from the row's end of name. */
  lemma OneInSizeCell(prefix: string, ts: string, tail: string)
    ensures OccursAt(prefix + (" " + ts + " 1 B\n") + tail, "1", |prefix| + |ts| + 2)
  {
    var t := prefix + (" " + ts + " 1 B\n") + tail;
    var p := |prefix| + |ts| + 2;
    assert t[p] == '1';
    assert t[p..p + 1] == [t[p]];
  }

  /** Two rows, before linking. */
  lemma TwoRows(f0: File, f1: File, fmts: Formats)
    ensures Layout([f0, f1], fmts) == Line(f0, fmts) + Line(f1, fmts)
  {
    assert [f0, f1][1..] == [f1];
    assert Layout([f1], fmts) == Line(f1, fmts) + "";
  }

  /** The as-written loop on two entries, where the first name leads the text. */
  lemma LinkedTwo(c: Client, list: seq<File>, fmts: Formats, done: string)
    requires |list| == 2 && LinkTarget(c, list[0]).Success? && LinkTarget(c, list[1]).Success?
    requires done == LinkedLine(list[0], LinkTarget(c, list[0]).value, fmts)
    ensures Linked(c, list, Layout(list, fmts)) ==
      Success(ReplaceFirst(done + Line(list[1], fmts), list[1].name, Anchor(LinkTarget(c, list[1]).value, list[1].name)))
  {
    var f0, f1 := list[0], list[1];
    assert list == [f0, f1];
    TwoRows(f0, f1, fmts);
    var layout := Layout(list, fmts);
    var line0, line1 := Line(f0, fmts), Line(f1, fmts);
    var a0 := Anchor(LinkTarget(c, f0).value, f0.name);
    ReplaceLeading(layout, line0, line1, f0.name, a0);
    var content := ReplaceFirst(layout, f0.name, a0);
    assert done == a0 + line0[|f0.name|..];
    assert content == done + line1;
    assert Linked(c, list, layout) == Linked(c, list[1..], content);
    assert list[1..] == [f1] && [f1][1..] == [];
  }

  /** The first "1" after linking the first row lies in its size cell. */
  lemma ExampleMisplaced(c: Client, f0: File, f1: File, fmts: Formats, done: string)
    requires f0.name == "0" && !f0.isDir && f0.size == 1
    requires LinkTarget(c, f0).Success?
    requires done == LinkedLine(f0, LinkTarget(c, f0).value, fmts)
    ensures exists p: nat :: p + 1 <= |done| && OccursAt(done + Line(f1, fmts), "1", p)
  {
    SmallFileRow(f0, fmts);
    var a0 := Anchor(LinkTarget(c, f0).value, "0");
    var ts0 := fmts.rfc3339(f0.lastModified);
    var mid := " " + ts0 + " 1 B\n";
    assert Line(f0, fmts)[1..] == mid;
    assert done == a0 + mid;
    OneInSizeCell(a0, ts0, Line(f1, fmts));
    assert a0 + mid + Line(f1, fmts) == done + Line(f1, fmts);
    var p := |a0| + |ts0| + 2;
    assert p + 1 <= |done|;
  }

  /** A text ending in `line` is not one ending in `line` with its first character replaced by an anchor. */
  lemma RowsDiffer(x: string, done: string, anchor: string, line: string)
    requires HasSuffix(x, line) && |line| > 0 && |anchor| > 0 && anchor[|anchor| - 1] != line[0]
    ensures x != done + (anchor + line[1..])
  {
    var y := done + (anchor + line[1..]);
    assert y[|y| - |line|] == anchor[|anchor| - 1];
    assert x[|x| - |line|] == line[0];
  }

  /** The example's shape: a 1-byte file "0" followed by an entry named "1", both signed. */
  predicate ZeroThenOne(c: Client, list: seq<File>) {
    && |list| == 2 && list[0].name == "0" && !list[0].isDir && list[0].size == 1 && list[1].name == "1"
    && LinkTarget(c, list[0]).Success? && LinkTarget(c, list[1]).Success?
  }

  /** As written, the second row of the example keeps its plain text. */
  lemma ZeroThenOneAsWritten(c: Client, fmts: Formats, list: seq<File>)
    requires ZeroThenOne(c, list)
    ensures Linked(c, list, Layout(list, fmts)).Success?
    ensures HasSuffix(Linked(c, list, Layout(list, fmts)).value, Line(list[1], fmts))
  {
    var done := LinkedLine(list[0], LinkTarget(c, list[0]).value, fmts);
    LinkedTwo(c, list, fmts, done);
    ExampleMisplaced(c, list[0], list[1], fmts, done);
    var p: nat :| p + 1 <= |done| && OccursAt(done + Line(list[1], fmts), "1", p);
    ReplaceFirstKeepsTail(done, Line(list[1], fmts), "1", Anchor(LinkTarget(c, list[1]).value, "1"), p);
  }

  /** In the example, the second name occurs before its own row. */
  lemma ZeroThenOneNotOwnRow(c: Client, fmts: Formats, list: seq<File>)
    requires ZeroThenOne(c, list)
    ensures !FirstAtOwnRow(c, fmts, list, "")
  {
    var done := LinkedLine(list[0], LinkTarget(c, list[0]).value, fmts);
    ExampleMisplaced(c, list[0], list[1], fmts, done);
    var p: nat :| p + 1 <= |done| && OccursAt(done + Line(list[1], fmts), "1", p);
    OneRow(list[1], fmts);
    assert list[1..] == [list[1]];
    NameBeforeOwnRow(c, fmts, list[1..], done, p);
    assert "" + done == done;
    NotFirstAtOwnRowLater(c, fmts, list, "");
  }

  lemma OneRow(f: File, fmts: Formats)
    ensures Layout([f], fmts) == Line(f, fmts)
  {
    assert [f][1..] == [];
    assert Line(f, fmts) + "" == Line(f, fmts);
  }

  /** A name found within the text before its row breaks FirstAtOwnRow. */
  lemma NameBeforeOwnRow(c: Client, fmts: Formats, list: seq<File>, done: string, p: nat)
    requires |list| > 0 && p < |done| && OccursAt(done + Layout(list, fmts), list[0].name, p)
    ensures !FirstAtOwnRow(c, fmts, list, done)
  {
  }

  /** Row-bound linking of two signed entries. */
  lemma LinkRowsTwo(c: Client, fmts: Formats, list: seq<File>)
    requires |list| == 2 && LinkTarget(c, list[0]).Success? && LinkTarget(c, list[1]).Success?
    ensures LinkRows(c, fmts, list) ==
      Success(LinkedLine(list[0], LinkTarget(c, list[0]).value, fmts) + LinkedLine(list[1], LinkTarget(c, list[1]).value, fmts))
  {
    var second := LinkedLine(list[1], LinkTarget(c, list[1]).value, fmts);
    assert list[1..][1..] == [];
    assert second + "" == second;
    assert LinkRows(c, fmts, list[1..]) == Success(second);
  }

  /** In the example, the as-written page is not the row-bound one. */
  lemma ZeroThenOneDiffers(c: Client, fmts: Formats, list: seq<File>)
    requires ZeroThenOne(c, list)
    ensures Linked(c, list, Layout(list, fmts)) != LinkRows(c, fmts, list)
  {
    ZeroThenOneAsWritten(c, fmts, list);
    LinkRowsTwo(c, fmts, list);
    var a1 := Anchor(LinkTarget(c, list[1]).value, "1");
    var line1 := Line(list[1], fmts);
    assert a1[|a1| - 1] == '>' && line1[0] == '1';
    RowsDiffer(Linked(c, list, Layout(list, fmts)).value, LinkedLine(list[0], LinkTarget(c, list[0]).value, fmts), a1, line1);
  }

  /**
   * A root listing of the files "0" (1 byte) and "1" (5 bytes): the size
   * cell "1 B" of the first row holds the first "1", so the as-written loop
   * links that text and leaves the second row as it was, without its link;
   * the row-bound page differs.
   */
  lemma MisplacedLink(c: Client, fmts: Formats, t0: Time, t1: Time)
    requires GetPreSignedLink(c, "0", LinkTTL).Success? && GetPreSignedLink(c, "1", LinkTTL).Success?
    ensures var list := [File("0", false, 1, t0), File("1", false, 5, t1)];
      && SortedByName(list)
      && Linked(c, list, Layout(list, fmts)).Success?
      && HasSuffix(Linked(c, list, Layout(list, fmts)).value, Line(list[1], fmts))
      && !FirstAtOwnRow(c, fmts, list, "")
      && Linked(c, list, Layout(list, fmts)) != LinkRows(c, fmts, list)
  {
    var list := [File("0", false, 1, t0), File("1", false, 5, t1)];
    assert Less("0", "1");
    LessAsymmetric("0", "1");
    assert ZeroThenOne(c, list);
    ZeroThenOneAsWritten(c, fmts, list);
    ZeroThenOneNotOwnRow(c, fmts, list);
    ZeroThenOneDiffers(c, fmts, list);
  }

  /** The corrected page: built whole, rows linked by position, and only written once every link is signed. */
  function RenderPage(c: Client, fmts: Formats, path: string, list: seq<File>): Result<string, Error>
    requires '/' in path
  {
    var rows := LinkRows(c, fmts, list);
    if rows.Failure? then Failure(rows.error) else Success(Prelude(path) + rows.value + "\n</pre>\n")
  }

  /** The three Fprintf calls that open the page. */
  method WritePrelude(w: Http.StatusRecorder, path: string)
    requires '/' in path
    modifies w.inner
    ensures w.inner.Committed(Http.StatusOK)
    ensures w.inner.header == old(w.inner.header) && w.inner.body == old(w.inner.body) + Prelude(path)
  {
    w.Write("<pre>\n");
    w.Write(path + "\n\n");
    if path != "/" {
      w.Write("<a href=\"" + UpLink(path).value + "\">..</a>\n");
    }
  }

  /**
   * renderFileList as main.go writes it: the Content-Type and the opening of
   * the page go to the writer before any link is signed, so a signing error
   * leaves them sent; the rows and the closing only follow on success.
   */
  method RenderFileList(c: Client, fmts: Formats, w: Http.StatusRecorder, path: string, list: array<File>)
    returns (err: Option<Error>)
    requires '/' in path
    modifies list, w.inner
    ensures SortedByName(list[..]) && multiset(list[..]) == multiset(old(list[..]))
    ensures var linked := Linked(c, list[..], Layout(list[..], fmts));
      && err == (if linked.Failure? then Some(linked.error) else None)
      && w.inner.body == old(w.inner.body) + Prelude(path) +
           (if linked.Success? then linked.value + "\n</pre>\n" else "")
    ensures w.inner.header == old(w.inner.header)["Content-Type" := Http.HtmlType]
    ensures w.inner.wroteHeader
    ensures old(w.inner.wroteHeader) ==>
      w.inner.status == old(w.inner.status) && w.inner.sentHeader == old(w.inner.sentHeader)
    ensures !old(w.inner.wroteHeader) ==>
      w.inner.status == Http.StatusOK && w.inner.sentHeader == old(w.inner.header)["Content-Type" := Http.HtmlType]
  {
    SortByName(list);
    w.SetHeader("Content-Type", Http.HtmlType);
    WritePrelude(w, path);
    var content := Layout(list[..], fmts);
    var linked := LinkEntries(c, list[..], content);
    if linked.Failure? {
      return Some(linked.error);
    }
    w.Write(linked.value + "\n</pre>\n");
    return None;
  }

  // ---------------------------------------------------------------- the corrected renderer

  /** The corrected loop: each entry's link goes into its own row as the rows are built. */
  method LinkEachRow(c: Client, fmts: Formats, list: seq<File>) returns (r: Result<string, Error>)
    ensures r == LinkRows(c, fmts, list)
  {
    var rows := "";
    assert list[0..] == list;
    var whole := LinkRows(c, fmts, list);
    if whole.Success? {
      assert "" + whole.value == whole.value;
    }
    for i := 0 to |list|
      invariant LinkRows(c, fmts, list) == PrependText(rows, LinkRows(c, fmts, list[i..]))
    {
      assert list[i..][1..] == list[i + 1..];
      var entry := list[i];
      var link: string;
      if entry.isDir {
        link := "/" + entry.name;
      } else {
        var signed := GetPreSignedLink(c, entry.name, LinkTTL);
        if signed.Failure? {
          return Failure(SignError(entry.name, signed.error));
        }
        link := signed.value;
      }
      PrependTextTwice(rows, LinkedLine(entry, link, fmts), LinkRows(c, fmts, list[i + 1..]));
      rows := rows + LinkedLine(entry, link, fmts);
    }
    assert rows + "" == rows;
    return Success(rows);
  }

  /**
   * renderFileList, corrected: the page is built whole and written only once
   * every link is signed, so an error leaves the writer untouched for
   * http.Error to report.
   */
  method RenderFileListBuffered(c: Client, fmts: Formats, w: Http.StatusRecorder, path: string, list: array<File>)
    returns (err: Option<Error>)
    requires '/' in path
    modifies list, w.inner
    ensures SortedByName(list[..]) && multiset(list[..]) == multiset(old(list[..]))
    ensures var page := RenderPage(c, fmts, path, list[..]);
      && err == (if page.Failure? then Some(page.error) else None)
      && (page.Failure? ==>
            && w.inner.header == old(w.inner.header) && w.inner.body == old(w.inner.body)
            && w.inner.wroteHeader == old(w.inner.wroteHeader) && w.inner.status == old(w.inner.status)
            && w.inner.sentHeader == old(w.inner.sentHeader))
      && (page.Success? ==>
            && w.inner.header == old(w.inner.header)["Content-Type" := Http.HtmlType]
            && w.inner.body == old(w.inner.body) + page.value
            && w.inner.wroteHeader
            && (old(w.inner.wroteHeader) ==>
                  w.inner.status == old(w.inner.status) && w.inner.sentHeader == old(w.inner.sentHeader))
            && (!old(w.inner.wroteHeader) ==>
                  w.inner.status == Http.StatusOK && w.inner.sentHeader == w.inner.header))
  {
    SortByName(list);
    var rows := LinkEachRow(c, fmts, list[..]);
    if rows.Failure? {
      return Some(rows.error);
    }
    w.SetHeader("Content-Type", Http.HtmlType);
    w.Write(Prelude(path) + rows.value + "\n</pre>\n");
    return None;
  }
}
