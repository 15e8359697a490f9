/**
 The context the chat proxy appends to a prompt for a signed-in user: the
 names and types of up to five Drive files, and short text snippets of the
 first two of them. Every failure along the way only makes the context
 shorter; none of them reaches the user.
 */
module Enrichment {
  import opened Common
  import opened Text
  import opened Tokens
  import opened Http

  /** `pageSize=5` on the chat's listing URL. */
  const ChatPageSize: nat := 5
  /** Snippets are taken from at most this many files, the first ones listed. */
  const MaxSnippets: nat := 2
  /** Each snippet keeps at most this many characters of the file. */
  const SnippetLimit: nat := 800
  /** Google Docs are exported as plain text; every other file is downloaded as is. */
  const GoogleDocMime: string := "application/vnd.google-apps.document"
  const FilesHeader: string := "\n\n[User Drive files]\n"
  const SnippetsHeader: string := "\n\n[File snippets]\n"

  datatype Snippet = Snippet(name: string, text: string)

  /** What enrichment produced: the text to append and the calls made for it. */
  datatype Enriched = Enriched(text: string, calls: seq<Call>)

  /** One line of the file list: `- {name} ({mimeType})`. */
  function FileLine(f: DriveFile): (line: string)
    ensures StartsWith(line, "- ")
    ensures ('\n' in line) <==> ('\n' in f.name || '\n' in f.mimeType)
  {
    "- " + f.name + " (" + f.mimeType + ")"
  }

  function FileLines(files: seq<DriveFile>): (lines: seq<string>)
    ensures |lines| == |files|
    ensures forall i :: 0 <= i < |files| ==> lines[i] == FileLine(files[i])
  {
    seq(|files|, i requires 0 <= i < |files| => FileLine(files[i]))
  }

  /** The file list: the lines joined with newlines. */
  function FileList(files: seq<DriveFile>): (list: string)
    ensures files == [] <==> list == ""
    ensures files != [] ==> StartsWith(list, FileLine(files[0]))
  {
    var lines := FileLines(files);
    if |lines| >= 2 then
      var list := Join(lines, "\n");
      assert list == lines[0] + ("\n" + Join(lines[1..], "\n"));
      assert list[..|lines[0]|] == lines[0];
      list
    else
      Join(lines, "\n")
  }

  /** No file name or type holds a line break. */
  predicate SingleLineNames(files: seq<DriveFile>) {
    forall i :: 0 <= i < |files| ==> '\n' !in files[i].name && '\n' !in files[i].mimeType
  }

  /** Splitting the file list at line breaks recovers one line per file, in order. */
  lemma FileListLines(files: seq<DriveFile>)
    requires |files| >= 1 && SingleLineNames(files)
    ensures Split(FileList(files), '\n') == FileLines(files)
  {
    var lines := FileLines(files);
    forall i | 0 <= i < |lines| ensures '\n' !in lines[i] {
      assert lines[i] == FileLine(files[i]);
    }
    SplitJoin(lines, '\n');
  }

  /** The call that fetches a file's text: an export for Google Docs, a download otherwise. */
  function ContentCall(f: DriveFile): (c: Call)
    ensures c.ExportText? <==> f.mimeType == GoogleDocMime
    ensures c.ExportText? ==> c.fileId == f.id
    ensures c.Download? ==> c.fileId == f.id
    ensures c.ExportText? || c.Download?
  {
    if f.mimeType == GoogleDocMime then ExportText(f.id) else Download(f.id)
  }

  /**
   The answer to the content fetch of the `j`-th file. `contents` holds the
   answers in order; a file with no answer given is a fetch that rejected.
   A body that cannot be read is `Answered("")` (`.text().catch(() => '')`).
   */
  function ContentOf(contents: seq<Net<string>>, j: nat): Net<string> {
    if j < |contents| then contents[j] else Failed
  }

  /** The snippet the `j`-th file contributes: its first 800 characters, when it has any. */
  function SnippetAt(files: seq<DriveFile>, contents: seq<Net<string>>, j: nat): (s: Option<Snippet>)
    requires j < |files|
    ensures s.Some? <==> ContentOf(contents, j).Answered? && ContentOf(contents, j).answer != ""
    ensures s.Some? ==> s.value.name == files[j].name
    ensures s.Some? ==> s.value.text == Take(ContentOf(contents, j).answer, SnippetLimit)
  {
    match ContentOf(contents, j)
    case Answered(content) => if content != "" then Some(Snippet(files[j].name, Take(content, SnippetLimit))) else None
    case Failed => None
  }

  /** The snippets of the first `n` files, in order, skipping files with no text. */
  function Snippets(files: seq<DriveFile>, contents: seq<Net<string>>, n: nat): (r: seq<Snippet>)
    requires n <= |files|
    ensures |r| <= n
    ensures forall k :: 0 <= k < |r| ==> r[k].text != "" && |r[k].text| <= SnippetLimit
  {
    if n == 0 then []
    else
      var before := Snippets(files, contents, n - 1);
      match SnippetAt(files, contents, n - 1)
      case None => before
      case Some(s) => before + [s]
  }

  /** Every snippet is the snippet of one of the first `n` files. */
  lemma {:induction false} SnippetOrigin(files: seq<DriveFile>, contents: seq<Net<string>>, n: nat, k: nat)
    requires n <= |files| && k < |Snippets(files, contents, n)|
    ensures exists j :: 0 <= j < n && SnippetAt(files, contents, j) == Some(Snippets(files, contents, n)[k])
  {
    var before := Snippets(files, contents, n - 1);
    if k < |before| {
      SnippetOrigin(files, contents, n - 1, k);
      assert Snippets(files, contents, n)[k] == before[k];
    } else {
      assert SnippetAt(files, contents, n - 1) == Some(Snippets(files, contents, n)[k]);
    }
  }

  /** How many of the first `j` files have text. */
  function PresentBefore(files: seq<DriveFile>, contents: seq<Net<string>>, j: nat): nat
    requires j <= |files|
  {
    if j == 0 then 0
    else PresentBefore(files, contents, j - 1) + (if SnippetAt(files, contents, j - 1).Some? then 1 else 0)
  }

  /** There is one snippet for each of the first `n` files that has text. */
  lemma {:induction false} SnippetsCount(files: seq<DriveFile>, contents: seq<Net<string>>, n: nat)
    requires n <= |files|
    ensures |Snippets(files, contents, n)| == PresentBefore(files, contents, n)
  {
    if n > 0 {
      SnippetsCount(files, contents, n - 1);
    }
  }

  /**
   Every one of the first `n` files that has text contributes its snippet,
   and it sits after the snippets of the files before it that have text: the
   snippets are those of the files with text, in file order.
   */
  lemma {:induction false} SnippetPlace(files: seq<DriveFile>, contents: seq<Net<string>>, n: nat, j: nat)
    requires j < n <= |files| && SnippetAt(files, contents, j).Some?
    ensures PresentBefore(files, contents, j) < |Snippets(files, contents, n)|
    ensures Snippets(files, contents, n)[PresentBefore(files, contents, j)] == SnippetAt(files, contents, j).value
  {
    var before := Snippets(files, contents, n - 1);
    SnippetsCount(files, contents, n - 1);
    if j < n - 1 {
      SnippetPlace(files, contents, n - 1, j);
      assert Snippets(files, contents, n)[PresentBefore(files, contents, j)] == before[PresentBefore(files, contents, j)];
    } else {
      assert Snippets(files, contents, n) == before + [SnippetAt(files, contents, j).value];
    }
  }

  /** A file with text comes before a later file in the snippets. */
  lemma {:induction false} PresentBeforeGrows(files: seq<DriveFile>, contents: seq<Net<string>>, i: nat, j: nat)
    requires i < j <= |files| && SnippetAt(files, contents, i).Some?
    ensures PresentBefore(files, contents, i) < PresentBefore(files, contents, j)
    decreases j
  {
    if i < j - 1 {
      PresentBeforeGrows(files, contents, i, j - 1);
    }
  }

  /** When every one of the first `n` files has text, there is one snippet per file, in file order. */
  lemma {:induction false} SnippetsAllAnswered(files: seq<DriveFile>, contents: seq<Net<string>>, n: nat)
    requires n <= |files|
    requires forall j :: 0 <= j < n ==> SnippetAt(files, contents, j).Some?
    ensures |Snippets(files, contents, n)| == n
    ensures forall k :: 0 <= k < n ==> Some(Snippets(files, contents, n)[k]) == SnippetAt(files, contents, k)
  {
    if n > 0 {
      SnippetsAllAnswered(files, contents, n - 1);
      var before := Snippets(files, contents, n - 1);
      var last := SnippetAt(files, contents, n - 1);
      assert last.Some?;
      var r := Snippets(files, contents, n);
      assert r == before + [last.value];
      forall k | 0 <= k < n ensures Some(r[k]) == SnippetAt(files, contents, k) {
        if k < n - 1 {
          assert r[k] == before[k];
        } else {
          assert r[k] == last.value;
        }
      }
    }
  }

  /** When none of the first `n` files has text, there are no snippets. */
  lemma {:induction false} SnippetsNoneAnswered(files: seq<DriveFile>, contents: seq<Net<string>>, n: nat)
    requires n <= |files|
    requires forall j :: 0 <= j < n ==> SnippetAt(files, contents, j).None?
    ensures Snippets(files, contents, n) == []
  {
    if n > 0 {
      SnippetsNoneAnswered(files, contents, n - 1);
    }
  }

  /** One snippet block: `--- {name} ---`, the text, and a line break. */
  function SnippetBlock(s: Snippet): string {
    "--- " + s.name + " ---\n" + s.text + "\n"
  }

  /** The snippet section: empty without snippets, otherwise its header and the blocks separated by blank lines. */
  function SnippetSection(snippets: seq<Snippet>): (r: string)
    ensures r == "" <==> snippets == []
    ensures snippets != [] ==> StartsWith(r, SnippetsHeader)
  {
    if snippets == [] then ""
    else SnippetsHeader + Join(seq(|snippets|, k requires 0 <= k < |snippets| => SnippetBlock(snippets[k])), "\n")
  }

  /** Snippets are tried for the first two files, or for all of them when there are fewer. */
  function SnippetCount(files: seq<DriveFile>): (n: nat)
    ensures n <= MaxSnippets && n <= |files|
    ensures n == MaxSnippets || n == |files|
  {
    if |files| < MaxSnippets then |files| else MaxSnippets
  }

  /**
   The enrichment for a user with token record `token`: list five files,
   append the list, then fetch the first two files' text and append the
   snippets. A listing that rejects, or whose body is not JSON, leaves the
   enrichment empty; a body without `files` lists nothing.
   */
  function Enrich(token: TokenRecord, listing: Net<Listing>, contents: seq<Net<string>>): (e: Enriched)
    ensures 1 <= |e.calls| <= 1 + MaxSnippets
    ensures e.calls[0] == ListFiles(ChatPageSize, token.accessToken)
    ensures forall k :: 1 <= k < |e.calls| ==> e.calls[k].ExportText? || e.calls[k].Download?
    ensures e.text == "" <==> listing.Failed? || listing.answer.json.None?
    ensures e.text != "" ==> StartsWith(e.text, FilesHeader)
  {
    var listCall := [ListFiles(ChatPageSize, token.accessToken)];
    match listing
    case Failed => Enriched("", listCall)
    case Answered(answer) =>
      match answer.json
      case None => Enriched("", listCall)
      case Some(json) =>
        var files := json.files.GetOr([]);
        var n := SnippetCount(files);
        var fetches := seq(n, i requires 0 <= i < n => ContentCall(files[i]));
        var text := FilesHeader + FileList(files) + SnippetSection(Snippets(files, contents, n));
        assert text[..|FilesHeader|] == FilesHeader;
        Enriched(text, listCall + fetches)
  }

  /**
   With a readable listing, the enrichment is exactly the header, the file
   list and the snippet section, and the calls fetch the text of the first
   `min(2, files)` files in order.
   */
  lemma EnrichLayout(token: TokenRecord, status: int, json: ListJson, contents: seq<Net<string>>)
    ensures var files := json.files.GetOr([]);
            var e := Enrich(token, Answered(Listing(status, Some(json))), contents);
            && e.text == FilesHeader + FileList(files) + SnippetSection(Snippets(files, contents, SnippetCount(files)))
            && |e.calls| == 1 + SnippetCount(files)
            && forall i :: 0 <= i < SnippetCount(files) ==> e.calls[1 + i] == ContentCall(files[i])
  {
  }
}
