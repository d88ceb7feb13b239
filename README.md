# S3 directory gateway, modelled in Dafny

The gateway is one Go file, `main.go`. It is an HTTP server that serves an S3 bucket.

- **Directories.** A request path ending in `/` is a directory. The handler lists the keys under that prefix with `ListObjectsV2` (delimiter `/`), following continuation tokens. It then renders an HTML page: a `<pre>` block with the path, a `..` link below the root, and one row per entry. Directory rows show only the name. File rows show the name, the RFC 3339 modification time and a human-readable size. Each entry's name is then turned into a link: `/` + name for a directory, a five-minute pre-signed GET URL for a file.
- **Objects.** Any other path is an object. The handler pre-signs the path and answers with a 308 redirect to the URL.
- **Errors.** Errors are reported with `http.Error` and status 500.
- **Logging.** `withLogging` wraps the writer in `responseWriter`, which records the last `WriteHeader` code (200 by default). It logs that code once the handler returns.

## The model

| Module | File | What it holds |
|---|---|---|
| `Wrappers` | `wrappers.dfy` | `Option` and `Result` |
| `Strings` | `strings.dfy` | The Go string functions the core uses: `TrimPrefix`, `LastIndex`, `Index`, `Replace(…, 1)`, byte order `<`, `%d` |
| `Humanize` | `humanize.dfy` | `humanizeBytes`, as a method with the same loop, and its specification |
| `Storage` | `storage.dfy` | The S3 records, the backend and `listObjectsByPrefix` |
| `Http` | `http.dfy` | The client-visible writer, the `responseWriter` recorder, `http.Error` and `http.Redirect` |
| `Render` | `render.dfy` | `renderFileList` as written, and a corrected renderer |
| `Gateway` | `gateway.dfy` | The `buildHandler` dispatch, the corrected handler and `withLogging` |

Modelling choices:

- **The backend.** The S3 backend is a pair of total functions in `Storage.Api`. `listObjectsV2` maps a request to a page or an error. `presign` maps a GetObject request and a duration to a URL or an error.
- **Pagination.** The Go loop stops only if the backend stops handing out continuation tokens. `Storage.PaginationEnds` states this within a ghost `fuel`, and the lister requires it.
- **Formatters.** `%.2f` of a float quotient and `time.Format(RFC3339)` are parameters (`Render.Formats`). The choice of divisor and unit symbol is modelled exactly.
- **Strings.** Strings are sequences of Unicode scalar values. Comparing them by code point gives the same order as Go's byte-wise `<` on their UTF-8 encoding.
- **The writer.** `Http.ResponseWriter` follows net/http's commit rule. The first `WriteHeader`, or the first `Write` (which implies 200), sends the status and a copy of the header. Later `WriteHeader` calls and header edits do not reach the client.
- **The recorder.** `Http.StatusRecorder` is `responseWriter`. Its ghost `codes` holds the history of `WriteHeader` calls.

Where the code and its description differ, the model follows the code:

- **Redirect key.** The redirect branch pre-signs the raw request path, leading `/` included (`main.go:164`). It is not the path without its `/`.
- **Up-link.** The `..` link is the path cut before its last `/`, followed by `/..` (`main.go:120-121`). For `/photos/` that gives `/photos/..`, not the parent directory itself.
- **Sort order.** `sort.Slice` is not stable, so entries with equal names may come out in any order. The model promises only a sorted permutation, and the handlers return the order used as a ghost value.

## Model

| member | source | states |
|---|---|---|
| `Strings.TrimPrefix` | main.go:64 | With the prefix present, prefix + result is the input. Without it, the input is returned unchanged. |
| `Strings.HasSuffix` | main.go:153 | The path ends with the given suffix: it is at least as long, and its last characters are the suffix. |
| `Strings.SlashSuffix` | main.go:153 | A path counts as a directory exactly when it is non-empty and its last character is "/". |
| `Strings.LastIndex` | main.go:120 | The result is -1 or the position of `c`, and no `c` occurs after it. |
| `Strings.IndexOf` | main.go:144 | The leftmost occurrence of the target. None exactly when the target does not occur at all. |
| `Strings.ReplaceFirst` | main.go:144 | With no occurrence, the text is unchanged. Otherwise the leftmost occurrence is replaced, and the text before and after it is kept. |
| `Strings.ReplaceFirstSelf` | main.go:144 | Replacing a name by itself leaves the text unchanged (Go's `old == new` shortcut agrees). |
| `Strings.ReplaceFirstKeepsTail` | main.go:144 | A replacement whose first occurrence lies in a prefix leaves the tail after that prefix untouched. |
| `Strings.LessIrreflexive` | main.go:113-115 | No name sorts before itself. |
| `Strings.LessTransitive` | main.go:113-115 | The name order is transitive. |
| `Strings.LessTotal` | main.go:113-115 | Of two different names, one sorts before the other. |
| `Strings.NotAfterTransitive` | main.go:113-115 | "Not after" is transitive, so a sorted list is pairwise ordered. |
| `Strings.NotAfterTotal` | main.go:113-115 | Any two names are comparable. |
| `Strings.DigitsRoundTrip` | main.go:23 | The decimal digits of n read back as n. |
| `Strings.DecimalString` | main.go:23 | `%d` of an integer is never empty, and it starts with "-" exactly when the integer is negative. |
| `Strings.DecimalRoundTrip` | main.go:23 | `%d` text of any integer parses back to it. |
| `Humanize.MagnitudeBrackets` | main.go:25-29 | The number of divisions by 1000 the loop makes puts n between 1000^m and 1000^(m+1). |
| `Humanize.MagnitudeUnique` | main.go:25-29 | Only one power of 1000 brackets n. |
| `Humanize.PowMonotonic` | main.go:27 | Powers of 1000 grow with the exponent. |
| `Humanize.Int64Magnitude` | main.go:30 | For every int64 of at least 1000, the magnitude is 1 to 6, so `"kMGTPE"[exp]` is always in range. |
| `Humanize.HumanizedText` | main.go:20-31 | The text humanizeBytes returns. Below 1000 it is `%d B`. Otherwise it is the two-decimal quotient by Divisor(b), a space, the unit symbol and "B". |
| `Humanize.HumanizedSmallExact` | main.go:22-24 | Below 1000 the text is the count in decimal followed by " B", and the digits read back as the exact count. |
| `Humanize.ScaleBounds` | main.go:25-30 | The divisor is at least 1000, at most b and fits an int64. b / divisor lies in [1, 1000). The unit index is 0 to 5. |
| `Humanize.QuotientShift` | main.go:26 | Dividing k+1 times by 1000 is dividing k times and then once more. |
| `Humanize.QuotientPositive` | main.go:26 | A quotient of at least 1 after k divisions means n is at least 1000^k. |
| `Humanize.HumanizeBytes` | main.go:20-31 | Below 1000 the text is `%d B`. Otherwise it is b / Divisor(b) with two decimals, a space, the unit symbol Exponent(b) of "kMGTPE", and "B". The loop is proved to compute that divisor and unit. |
| `Humanize.HumanizedInRange` | main.go:25-30 | A count between 1000^k and 1000^(k+1) is shown divided by 1000^k with the k-th unit symbol. |
| `Humanize.HumanizeSmallExamples` | main.go:22-24 | 0 and 999 print as "0 B" and "999 B". |
| `Humanize.HumanizeScaledExamples` | main.go:25-30 | 1000 and 2048 are shown in kB, 1500000 in MB, 10^12 in TB, with the matching divisors. |
| `Storage.ObjectFiles` | main.go:76-82 | One file per object, in order, with its key, size and time (nil read as zero). |
| `Storage.PrefixFiles` | main.go:83-88 | One directory per common prefix, in order. |
| `Storage.PageFilesOrder` | main.go:76-88 | A page contributes its objects as files first, then its prefixes as directories, in order. |
| `Storage.Conversation` | main.go:66-93 | Under `PaginationEnds`, the loop makes at least one request and no more than `fuel`. |
| `Storage.ConversationShape` | main.go:66-93 | The first request carries no token. Each later request carries the previous page's NextContinuationToken. Every request asks for the bucket, the trimmed prefix and delimiter "/", and gets the backend's answer. Every page before the last is truncated with a token. The last answer is an error or a page that ends the listing. |
| `Storage.CollectLength` | main.go:76-94 | With every request answered, the listing succeeds with one entry per object and prefix. |
| `Storage.CollectConcatenates` | main.go:76-94 | The j-th entry of page i sits at the number of entries on earlier pages, plus j. |
| `Storage.CollectFails` | main.go:73-75 | The first failed request makes the whole listing fail with its error. Files gathered before it are dropped. |
| `Storage.ConversationStep` | main.go:66-93 | One loop round: after a failed request, the listing is that error. After a final page, it is that page. Otherwise it is the page followed by the rest. |
| `Storage.HasMore` | main.go:89-91 | The loop continues only after a page that is truncated and names a next continuation token. |
| `Storage.Listing` | main.go:60-95 | listObjectsByPrefix as a function of the path: the conversation for the path without its leading "/", collected. |
| `Storage.ListObjectsByPrefix` | main.go:60-95 | The loop returns exactly the listing of the conversation it has with the backend. |
| `Storage.AppendObjects` | main.go:76-82 | The objects loop appends one file per object. |
| `Storage.AppendPrefixes` | main.go:83-88 | The prefixes loop appends one directory per prefix. |
| `Storage.GetPreSignedLink` | main.go:97-103 | The backend's pre-signing answer for a GetObject request of the key in the client's bucket, valid for the given duration. It is a URL or an error. |
| `Http.ResponseWriter.WriteHeader` | main.go:39 | The first call sends the code with the current header. Later calls change nothing the client sees. |
| `Http.ResponseWriter.Write` | main.go:146 | Appends to the body. When nothing was sent yet, it first sends 200 with the current header. |
| `Http.StatusRecorder.constructor` | main.go:46-49 | The recorder wraps the server's writer with StatusCode 200 and no recorded calls. |
| `Http.StatusRecorder.WriteHeader` | main.go:38-41 | Forwards the code to the server's writer and records it as the last code. |
| `Http.Error` | main.go:156 | The handler-side header loses Content-Length and gains the plain-text type and nosniff, and the code is recorded. On a fresh writer that code and header are sent. On a committed writer the sent status and header stay. The message and a newline are appended. |
| `Http.Redirect` | main.go:169 | The handler-side header gains Location, and the code is recorded. On a fresh writer the code and that header are sent. On a committed writer nothing sent changes. |
| `Render.SortByName` | main.go:113-115 | In place: the array ends sorted by name and is a permutation of what it held. |
| `Render.UpLink` | main.go:119-122 | None exactly at "/". Otherwise the path cut before its last "/", plus "/..". |
| `Render.UpLinkOfDirectory` | main.go:119-121 | For a directory path other than "/", the link is the path without its final "/", plus "/..". |
| `Render.UpLinkExamples` | main.go:119-121 | "/" has no up-link. "/photos/" links to "/photos/..". |
| `Render.Prelude` | main.go:116-122 | The text written before the rows: "<pre>", the path followed by a blank line, and the ".." line unless the path is "/". |
| `Render.PreludeShape` | main.go:117-122 | The opening starts with "<pre>" and the path. At "/" that is all. Below the root it ends with the ".." link to the up-link. |
| `Render.Cells` | main.go:125-131 | A directory row has four cells and a file row three. The first cell is the entry's name. |
| `Render.JoinCells` | main.go:124-131 | A row starts with its first cell. |
| `Render.Line` | main.go:125-131 | Every row starts with its entry's name. |
| `Render.RowText` | main.go:125-131 | A directory row is the name and three empty cells. A file row is the name, the time and the humanized size. |
| `Render.Layout` | main.go:123-133 | The tabwriter's output: the rows of the entries in list order. |
| `Render.LayoutAppend` | main.go:125-131 | The rows of two runs of entries are those of the first run followed by those of the second. |
| `Render.SignError` | main.go:141 | The error text starts with "error getting presigned link for NAME: " and ends with the signer's own message. |
| `Render.LinkTarget` | main.go:135-143 | A directory links to "/" + name. A file links to the five-minute pre-signed URL of its name. It fails exactly when signing fails, with SignError. |
| `Render.Linked` | main.go:134-145 | The as-written substitution as a function. For each entry in order, the first occurrence of its name in the whole text becomes its anchor. The first link error aborts. |
| `Render.LinkEntries` | main.go:134-145 | The link loop computes the as-written substitution: entry by entry, the first occurrence of the name in the whole text becomes its anchor. A signing error stops it. |
| `Render.LinkedSucceeds` | main.go:134-145 | When every file can be signed, linking succeeds. |
| `Render.LinkedFails` | main.go:139-142 | The first file that cannot be signed ends linking with "error getting presigned link for NAME: ERR". |
| `Render.WritePrelude` | main.go:117-122 | Writes "<pre>", the path and the up-link, committing status 200. |
| `Render.RenderFileList` | main.go:112-148 | Sorts the array and sets the HTML type. It commits 200 and writes the prelude before any signing. It then either appends the linked rows and `</pre>` or returns the signing error. |
| `Render.LinkedLineIsOwnReplacement` | main.go:144 | Within its own row, replacing the first occurrence of a name wraps exactly the row's leading name. |
| `Render.LinkRowsSameErrors` | main.go:139-142 | Row-bound linking fails exactly when the as-written loop fails, with the same error. |
| `Render.LinkRowsSucceeds` | main.go:134-145 | Row-bound linking succeeds exactly when every file can be signed. |
| `Render.SubstitutionAgrees` | main.go:134-145 | When no name occurs before its own row at its turn, the as-written page equals the row-bound one. |
| `Render.MisplacedLink` | main.go:144 | Counterexample: for files "0" (1 byte) and "1" at the root, the as-written page ends with row "1" unlinked and differs from the row-bound page. |
| `Render.LinkEachRow` | main.go:134-145 | The corrected loop computes the row-bound linking. |
| `Render.RenderFileListBuffered` | main.go:112-148 | Corrected renderer. Sorts the array. Writes the whole page and commits 200 only when every link is signed. Otherwise it returns the error and leaves the writer untouched. |
| `Gateway.ObjectOutcome` | main.go:164-169 | An object request is answered with 308 exactly when its path can be signed, with Location set to the URL. Otherwise it gets the 500 error outcome carrying the signing error. |
| `Gateway.ListedOutcomeAsWritten` | main.go:153-161 | A listed directory as main.go serves it: the whole page under 200, or the page's opening plus the error text under 200 with 500 logged. |
| `Gateway.AsWrittenAlwaysOK` | main.go:116-122 | As written, a listed directory always reaches the client with status 200, and its body starts with the page's opening. |
| `Gateway.AsWrittenLogsWrongStatus` | main.go:159-161 | As written, the logged status differs from the status sent exactly when a link cannot be signed. |
| `Gateway.UnsignedFileExample` | main.go:116-122 | Counterexample: at "/" with one unsignable file, the client gets 200 and the page's opening plus the error text, while 500 is logged. |
| `Gateway.LoggedStatusIsSent` | main.go:51 | In the corrected handler, every outcome is logged with the status the client received. |
| `Gateway.ListedOutcomeErrors` | main.go:159-161 | Corrected, a page is served with 200 exactly when every link is signed. A failure reports the as-written error. |
| `Gateway.ListedOutcomeAgrees` | main.go:134-148 | When no name occurs before its own row and all links sign, the corrected reply is the as-written one. |
| `Gateway.ServeObject` | main.go:164-169 | The object branch: a 308 redirect to the pre-signed path, or a 500 with the signing error. |
| `Gateway.ServeListingError` | main.go:154-157 | A listing error is sent as a 500 plain-text reply and logged as 500. |
| `Gateway.ServeListedAsWritten` | main.go:159-161 | After a listing, as written: the page with 200, or the page's opening plus the error under 200, logged as 500. |
| `Gateway.ServeListed` | main.go:159-161 | After a listing, corrected: the page with 200, or a clean 500 error reply. |
| `Gateway.ServeAsWritten` | main.go:150-172 | Dispatch by the trailing "/". Each branch's reply and logged status are as in the as-written outcomes. |
| `Gateway.Serve` | main.go:150-172 | The same dispatch, with the corrected renderer. |
| `Gateway.WithLogging` | main.go:43-53 | Wraps the server's writer, runs the corrected handler and returns the status it logs. That status equals the status the client received, and the reply is the handler's outcome. |

## Findings

| source | as written | input that shows it | evidently intended | confidence | as-written member | corrected member |
|---|---|---|---|---|---|---|
| main.go:116-122 | The page's opening is written, and status 200 committed, before any link is signed. A signing error then reaches `http.Error` on a committed writer: the client gets 200 with a partial HTML page plus the error text, while `withLogging` logs 500. | A directory listing holding one file whose pre-signing fails | Report the signing error as a 500 reply, with the page written only when it is complete | not executed | `Gateway.UnsignedFileExample` | `Gateway.Serve` |
| main.go:144 | `strings.Replace(content, name, link, 1)` links the first occurrence of the name anywhere in the remaining text, not the entry's own row. | Root listing of file "0" (1 byte) and file "1": the first "1" is in the size cell "1 B" of row "0", so row "1" stays unlinked | Link each entry's name in its own row | not executed | `Render.MisplacedLink` | `Render.LinkEachRow` |

For the first finding:

- The corrected handler `Gateway.Serve` uses `Render.RenderFileListBuffered`.
- `Gateway.LoggedStatusIsSent` and `Gateway.WithLogging` prove that the logged status is the status sent.

For the second finding:

- The corrected linking is `Render.LinkRows`, computed by `Render.LinkEachRow`.
- `Render.LinkedLineIsOwnReplacement` proves that it wraps each row's own leading name.
- `Render.SubstitutionAgrees` proves that it coincides with the as-written loop whenever the as-written loop does hit each row.

## Left out

- AWS session setup from the environment, the server's route registration and `ListenAndServe` (`main.go:174-189`): configuration and I/O.
- The request method, host and query, and the log line's text and timing (`main.go:45`, `main.go:51`). `WithLogging` returns the status the line would print.
- `float64` division and `%.2f` (`main.go:30`): floating point. The text is the `twoDecimals` parameter.
- `time.Format(RFC3339)` (`main.go:129`) is the `rfc3339` parameter.
- `Render.Layout`: does not model text/tabwriter (`main.go:124-132`). The model joins cells with one space and does not pad columns. It also does not split names: tabwriter ends a cell at a '\t' or '\v' inside a name and breaks the line at a '\f'. So a name holding those characters does not appear in Go's text, and Go leaves that row unlinked where the model links it. Padding spaces can also change which occurrence the first-occurrence replacement hits, for names that consist of or end in spaces. For names without those characters, the text and order of every cell match the source; only the column alignment differs.
- The request signing inside `getPreSignedLink` (`main.go:97-103`). It is the backend's `presign` function, given the bucket, the key and the five-minute duration.
- `Humanize.HumanizeBytes`: does not model Go's `%.2f` rounding of b / div. The scaled text is taken from `twoDecimals(b, div)`.
- `Http.Redirect`: does not model what net/http adds. It escapes non-ASCII bytes of the URL (hexEscapeNonASCII) before setting Location, and cleans relative URLs. It sets a Content-Type for GET and HEAD, and writes a short HTML body for GET only. The model sets Location to the URL as given, which is what it is for an ASCII absolute URL such as a pre-signed one.
- net/http's panic on status codes outside 100-999, and its "superfluous WriteHeader" log message. The model keeps only the fact that a second WriteHeader is ignored.
- `Http.ResponseWriter.Write`: net/http's sniffing of a Content-Type for bodies without one is not modelled. The handler always sets one before writing.
- Concurrency between requests: each request has its own writer, and the handler shares nothing mutable.
