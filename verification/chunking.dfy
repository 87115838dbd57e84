/** The row chunker of backend/app/kb.py and the pure parts of its
    endpoints: one chunk per data row, the clamped pagination of the stored
    chunk list, the accepted upload extensions and the name of the chunk dump
    file. The table arrives already parsed (header list plus rows). */
module Chunking {
  import opened Common

  /** One cell of a parsed row: pandas' missing value, or the text that
      `str(value)` gives for a present value. */
  datatype Cell = Missing | Present(repr: string)

  /** A parsed table: its column names and its data rows, in file order. */
  datatype Table = Table(headers: seq<string>, rows: seq<seq<Cell>>)

  /** The chunk record: `id` and `row_index` are both the row's position. */
  datatype Chunk = Chunk(id: int, text: string, rowIndex: int, headers: seq<string>)

  const FieldSeparator := " | "

  /** A missing cell renders as the empty value; any other as `str(value).strip()`. */
  function CellValue(c: Cell): string {
    match c
    case Missing => ""
    case Present(repr) => Strip(repr)
  }

  function Fragment(header: string, c: Cell): string {
    header + ": " + CellValue(c)
  }

  /** The `"header: value"` fragments of one row, in column order; like
      `zip`, it stops at the shorter of the header list and the row. */
  function Fragments(headers: seq<string>, row: seq<Cell>): seq<string> {
    seq(Min(|headers|, |row|), j requires 0 <= j < Min(|headers|, |row|) => Fragment(headers[j], row[j]))
  }

  function RowText(headers: seq<string>, row: seq<Cell>): string {
    Join(FieldSeparator, Fragments(headers, row))
  }

  /** Every row of the table has one cell per column, as a parsed data frame does. */
  predicate Rectangular(t: Table) {
    forall i :: 0 <= i < |t.rows| ==> |t.rows[i]| == |t.headers|
  }

  /** `perform_chunking`: one chunk per data row, in row order, each
      carrying its position as `id` and `row_index` and the full header list. */
  method PerformChunking(t: Table) returns (chunks: seq<Chunk>)
    ensures |chunks| == |t.rows|
    ensures forall i :: 0 <= i < |chunks| ==>
              chunks[i] == Chunk(i, RowText(t.headers, t.rows[i]), i, t.headers)
  {
    chunks := [];
    var headers := t.headers;
    for index := 0 to |t.rows|
      invariant |chunks| == index
      invariant forall i :: 0 <= i < index ==>
                  chunks[i] == Chunk(i, RowText(headers, t.rows[i]), i, headers)
    {
      var row := t.rows[index];
      var n := Min(|headers|, |row|);
      var parts: seq<string> := [];
      for j := 0 to n
        invariant parts == Fragments(headers[..j], row[..j])
      {
        var value := CellValue(row[j]);
        parts := parts + [headers[j] + ": " + value];
      }
      assert Fragments(headers[..n], row[..n]) == Fragments(headers, row);
      var chunkText := Join(FieldSeparator, parts);
      chunks := chunks + [Chunk(index, chunkText, index, headers)];
    }
  }

  /** One fragment per column, in column order, and a missing cell leaves
      the value after `"header: "` empty. */
  lemma FragmentsOfRow(headers: seq<string>, row: seq<Cell>, j: int)
    requires |row| == |headers|
    requires 0 <= j < |headers|
    ensures |Fragments(headers, row)| == |headers|
    ensures Fragments(headers, row)[j] == headers[j] + ": " + CellValue(row[j])
    ensures row[j] == Missing ==> Fragments(headers, row)[j] == headers[j] + ": "
  {
  }

  /** Adding one more column to a row adds `" | header: value"` at the end
      of its text: the text is built left to right, column by column. */
  lemma {:induction false} RowTextSnoc(headers: seq<string>, row: seq<Cell>, h: string, c: Cell)
    requires |row| == |headers| > 0
    ensures RowText(headers + [h], row + [c]) == RowText(headers, row) + FieldSeparator + Fragment(h, c)
  {
    assert Fragments(headers + [h], row + [c]) == Fragments(headers, row) + [Fragment(h, c)];
    JoinSnoc(FieldSeparator, Fragments(headers, row), Fragment(h, c));
  }

  /** The text of a row starts with its first fragment, and its length is
      that of all fragments plus one separator between neighbours. */
  lemma RowTextShape(headers: seq<string>, row: seq<Cell>)
    requires |row| == |headers| > 0
    ensures Fragment(headers[0], row[0]) <= RowText(headers, row)
    ensures |RowText(headers, row)| == SumLengths(Fragments(headers, row)) + (|headers| - 1) * |FieldSeparator|
  {
    JoinStartsWithFirst(FieldSeparator, Fragments(headers, row));
    JoinLength(FieldSeparator, Fragments(headers, row));
  }

  // ---------------------------------------------------------------------
  // Pagination of the stored chunk list (get_kb_chunks)

  const DefaultPageSize := 100
  const MaxPageSize := 1000

  function ClampPage(page: int): (p: int)
    ensures p >= 1
    ensures page >= 1 ==> p == page
    ensures page < 1 ==> p == 1
  {
    if page < 1 then 1 else page
  }

  function ClampPageSize(size: int): (s: int)
    ensures 1 <= s <= MaxPageSize
    ensures 1 <= size <= MaxPageSize ==> s == size
    ensures !(1 <= size <= MaxPageSize) ==> s == DefaultPageSize
  {
    if size < 1 || size > MaxPageSize then DefaultPageSize else size
  }

  /** The `pagination` object of the response. `startIdx` is one-based, as
      reported; `endIdx` is clamped to the number of chunks. */
  datatype PageInfo = PageInfo(page: int, pageSize: int, totalPages: int,
                               hasNext: bool, hasPrev: bool, startIdx: int, endIdx: int)

  datatype Page<T> = Page(total: nat, items: seq<T>, info: PageInfo)

  /** `(total + size - 1) // size`. */
  function TotalPages(total: nat, size: int): (n: nat)
    requires size >= 1
    ensures total == 0 ==> n == 0
    ensures total > 0 ==> (n - 1) * size < total <= n * size
  {
    (total + size - 1) / size
  }

  /** Where page `p` starts: `(page - 1) * page_size`. */
  function PageStart(p: int, size: int): nat
    requires p >= 1 && size >= 1
  {
    (p - 1) * size
  }

  /** The page of `all` that `get_kb_chunks` returns for the request's
      `page` and `page_size`, after clamping both. */
  function Paginate<T>(all: seq<T>, page: int, pageSize: int): (r: Page<T>)
    ensures r.total == |all|
    ensures r.info.page == ClampPage(page) && r.info.pageSize == ClampPageSize(pageSize)
    ensures |r.items| <= r.info.pageSize
    ensures var start := PageStart(r.info.page, r.info.pageSize);
            r.items == all[Min(start, |all|)..Min(start + r.info.pageSize, |all|)] &&
            r.info.startIdx == start + 1 &&
            r.info.endIdx == Min(start + r.info.pageSize, |all|)
    ensures r.info.totalPages == TotalPages(|all|, r.info.pageSize)
    ensures r.info.hasNext <==> r.info.page < r.info.totalPages
    ensures r.info.hasPrev <==> r.info.page > 1
  {
    var p := ClampPage(page);
    var size := ClampPageSize(pageSize);
    var start := PageStart(p, size);
    var end := start + size;
    var items := all[Min(start, |all|)..Min(end, |all|)];
    var totalPages := TotalPages(|all|, size);
    Page(|all|, items, PageInfo(p, size, totalPages, p < totalPages, p > 1, start + 1, Min(end, |all|)))
  }

  /** Every chunk is on exactly one page: the chunk at position `i` is item
      `i % size` of page `i / size + 1`, and that page is within the
      reported page count. */
  lemma ElementOnItsPage<T>(all: seq<T>, size: int, i: int)
    requires 1 <= size <= MaxPageSize
    requires 0 <= i < |all|
    ensures var r := Paginate(all, i / size + 1, size);
            i % size < |r.items| && r.items[i % size] == all[i] &&
            1 <= r.info.page <= r.info.totalPages
  {
    var q, m := i / size, i % size;
    DivMod(i, size);
    ItemOfPage(all, size, q, m);
  }

  lemma DivMod(i: nat, size: int)
    requires size >= 1
    ensures i == (i / size) * size + i % size && 0 <= i % size < size
  {
  }

  /** The position-`q * size + m` chunk is item `m` of page `q + 1`. */
  lemma ItemOfPage<T>(all: seq<T>, size: int, q: nat, m: nat)
    requires 1 <= size <= MaxPageSize && m < size
    requires q * size + m < |all|
    ensures var r := Paginate(all, q + 1, size);
            m < |r.items| && r.items[m] == all[q * size + m] &&
            1 <= r.info.page <= r.info.totalPages
  {
    var start := PageStart(q + 1, size);
    assert start == q * size;
    var r := Paginate(all, q + 1, size);
    assert r.items == all[start..Min(start + size, |all|)];
    var n := TotalPages(|all|, size);
    if q + 1 > n {
      MulMono(n, q, size);
    }
  }

  lemma MulMono(a: int, b: int, c: int)
    requires a <= b && c >= 0
    ensures a * c <= b * c
  {
  }

  /** The items of pages `1..k` in order. */
  function PagesUpTo<T>(all: seq<T>, size: int, k: nat): seq<T>
    requires 1 <= size <= MaxPageSize
  {
    if k == 0 then [] else PagesUpTo(all, size, k - 1) + Paginate(all, k, size).items
  }

  /** Walking the pages `1..k` in order yields the first `k * size` chunks. */
  lemma {:induction false} PagesUpToIsPrefix<T>(all: seq<T>, size: int, k: nat)
    requires 1 <= size <= MaxPageSize
    ensures PagesUpTo(all, size, k) == all[..Min(k * size, |all|)]
  {
    if k > 0 {
      PagesUpToIsPrefix(all, size, k - 1);
      var a := Min((k - 1) * size, |all|);
      var b := Min(k * size, |all|);
      PageItems(all, size, k);
      assert all[..b] == all[..a] + all[a..b];
    }
  }

  /** Page `k` holds the chunks from position `(k - 1) * size` to
      `k * size`, cut at the end of the list. */
  lemma PageItems<T>(all: seq<T>, size: int, k: nat)
    requires 1 <= size <= MaxPageSize && k >= 1
    ensures (k - 1) * size <= k * size
    ensures Paginate(all, k, size).items == all[Min((k - 1) * size, |all|)..Min(k * size, |all|)]
  {
    assert (k - 1) * size + size == k * size;
    assert PageStart(k, size) == (k - 1) * size;
  }

  /** Reading pages `1..total_pages` in order gives back every chunk
      exactly once, in stored order. */
  lemma PagesCoverAll<T>(all: seq<T>, size: int)
    requires 1 <= size <= MaxPageSize
    ensures PagesUpTo(all, size, TotalPages(|all|, size)) == all
  {
    var n := TotalPages(|all|, size);
    PagesUpToIsPrefix(all, size, n);
    assert |all| <= n * size;
  }

  // ---------------------------------------------------------------------
  // Upload extension check and the chunk dump name

  /** Index of the last occurrence of `c` in `s`, or -1. */
  function LastIndexOf(s: string, c: char): (k: int)
    ensures -1 <= k < |s|
    ensures k >= 0 ==> s[k] == c
    ensures forall j :: k < j < |s| ==> s[j] != c
  {
    if s == [] then -1
    else if s[|s| - 1] == c then |s| - 1
    else LastIndexOf(s[..|s| - 1], c)
  }

  predicate AllDots(s: string) {
    forall i :: 0 <= i < |s| ==> s[i] == '.'
  }

  /** `os.path.splitext` on a name without directory separators (as
      `secure_filename` returns): the extension runs from the last dot, unless
      every character before that dot is itself a dot. */
  function SplitExt(name: string): (parts: (string, string))
    ensures parts.0 + parts.1 == name
    ensures parts.1 == [] || parts.1[0] == '.'
    ensures forall j :: 0 < j < |parts.1| ==> parts.1[j] != '.'
    ensures parts.1 != [] ==> !AllDots(parts.0)
  {
    var d := LastIndexOf(name, '.');
    if d > 0 && !AllDots(name[..d]) then
      assert name[..d] + name[d..] == name;
      (name[..d], name[d..])
    else (name, "")
  }

  /** The upload accepts `.xlsx`, `.xls` and `.csv`, whatever their case. */
  predicate AllowedExtension(filename: string) {
    Lower(SplitExt(filename).1) in {".xlsx", ".xls", ".csv"}
  }

  /** The name the chunk dump is written under at upload and read back
      from at paging: the stem with `_chunks.json` appended. */
  function ChunksFileName(filename: string): (r: string)
    ensures |r| >= |DumpSuffix| && r[|r| - |DumpSuffix|..] == DumpSuffix
    ensures r[..|r| - |DumpSuffix|] == SplitExt(filename).0
  {
    SplitExt(filename).0 + DumpSuffix
  }

  const DumpSuffix := "_chunks.json"

  /** Two uploads share a dump name exactly when their names share a stem. */
  lemma DumpNameSharedIffSameStem(a: string, b: string)
    ensures ChunksFileName(a) == ChunksFileName(b) <==> SplitExt(a).0 == SplitExt(b).0
  {
    if ChunksFileName(a) == ChunksFileName(b) {
      var r := ChunksFileName(a);
      assert SplitExt(a).0 == r[..|r| - |DumpSuffix|] == SplitExt(b).0;
    }
  }

  /** A name whose last dot starts the extension accepts or rejects on
      that extension alone, and its dump name is its stem plus the suffix. */
  lemma {:induction false} SplitExtOfStemAndExt(stem: string, ext: string)
    requires |stem| > 0 && stem[0] != '.'
    requires |ext| > 0 && ext[0] == '.' && forall j :: 0 < j < |ext| ==> ext[j] != '.'
    ensures SplitExt(stem + ext) == (stem, ext)
    ensures AllowedExtension(stem + ext) <==> Lower(ext) in {".xlsx", ".xls", ".csv"}
    ensures ChunksFileName(stem + ext) == stem + "_chunks.json"
  {
    var name := stem + ext;
    var d := LastIndexOf(name, '.');
    assert name[|stem|] == '.';
    assert d == |stem|;
    assert name[..d] == stem;
    assert !AllDots(name[..d]) by { assert name[..d][0] != '.'; }
  }

  /** Two uploads that differ only in extension share one chunk dump name,
      so the later dump replaces the earlier one (`data.csv` and
      `data.xlsx` both dump to `data_chunks.json`). */
  lemma ChunkDumpNamesCollide(stem: string, ext1: string, ext2: string)
    requires |stem| > 0 && stem[0] != '.'
    requires |ext1| > 0 && ext1[0] == '.' && forall j :: 0 < j < |ext1| ==> ext1[j] != '.'
    requires |ext2| > 0 && ext2[0] == '.' && forall j :: 0 < j < |ext2| ==> ext2[j] != '.'
    ensures ChunksFileName(stem + ext1) == ChunksFileName(stem + ext2) == stem + "_chunks.json"
  {
    SplitExtOfStemAndExt(stem, ext1);
    SplitExtOfStemAndExt(stem, ext2);
  }

  /** Upper-case extensions are accepted. */
  lemma UpperCaseExtensionAccepted(stem: string)
    requires |stem| > 0 && stem[0] != '.'
    ensures AllowedExtension(stem + ".CSV")
  {
    SplitExtOfStemAndExt(stem, ".CSV");
    LowerCsv();
  }

  lemma LowerCsv()
    ensures Lower(".CSV") == ".csv"
  {
    var r := Lower(".CSV");
    assert r[0] == '.' && r[1] == 'c' && r[2] == 's' && r[3] == 'v';
  }

  /** A compressed `.csv.gz` is rejected: only the last extension counts. */
  lemma CompressedCsvRejected(stem: string)
    requires |stem| > 0 && stem[0] != '.'
    ensures !AllowedExtension(stem + ".csv" + ".gz")
  {
    SplitExtOfStemAndExt(stem + ".csv", ".gz");
    LowerGz();
  }

  lemma LowerGz()
    ensures Lower(".gz") == ".gz"
  {
    var r := Lower(".gz");
    assert r[0] == '.' && r[1] == 'g' && r[2] == 'z';
  }

  /** A dot-file named `.csv` has no extension at all, so it is rejected. */
  lemma DotFileRejected()
    ensures !AllowedExtension(".csv")
  {
    assert LastIndexOf(".csv", '.') == 0 by {
      assert ".csv"[..3] == ".cs";
      assert ".cs"[..2] == ".c";
      assert ".c"[..1] == ".";
    }
  }
}
