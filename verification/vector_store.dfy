/** Ingestion of company PDFs into the vector store: every chunk is tagged
    with the company name taken from its file name. The PDF loader and the
    text splitter are parameters. */
module VectorStore {
  import opened Values
  import opened Text

  /** A loaded page or a split chunk: its text and its metadata dict. */
  datatype Chunk = Chunk(pageContent: string, metadata: Dict)

  /** The company a PDF belongs to: the file's base name up to its first '.'. */
  function CompanyNameOf(path: string): (r: string)
    ensures |r| <= |Basename(path)|
    ensures forall i :: 0 <= i < |r| ==> r[i] == Basename(path)[i] && r[i] != '.'
    ensures |r| < |Basename(path)| ==> Basename(path)[|r|] == '.'
  {
    var base := Basename(path);
    var r := BeforeFirst(base, '.');
    assert r == base[..|r|];
    r
  }

  /** A base name without a '.' is the company name as a whole. */
  lemma CompanyNameWithoutDot(path: string)
    requires forall i :: 0 <= i < |Basename(path)| ==> Basename(path)[i] != '.'
    ensures CompanyNameOf(path) == Basename(path)
  {
  }

  /** `split.metadata["company"] = name` for every chunk. */
  function Tag(chunks: seq<Chunk>, name: string): (r: seq<Chunk>)
    ensures |r| == |chunks|
    ensures forall k :: 0 <= k < |chunks| ==>
      r[k] == Chunk(chunks[k].pageContent, Update(chunks[k].metadata, map["company" := Str(name)]))
  {
    seq(|chunks|, k requires 0 <= k < |chunks| =>
      Chunk(chunks[k].pageContent, Update(chunks[k].metadata, map["company" := Str(name)])))
  }

  /** The tagged chunks of one PDF. */
  function PdfChunks(path: string, load: string -> seq<Chunk>,
                     split: seq<Chunk> -> seq<Chunk>): (r: seq<Chunk>)
    ensures |r| == |split(load(path))|
    ensures forall k :: 0 <= k < |r| ==>
      && r[k].pageContent == split(load(path))[k].pageContent
      && "company" in r[k].metadata && r[k].metadata["company"] == Str(CompanyNameOf(path))
  {
    Tag(split(load(path)), CompanyNameOf(path))
  }

  // ---------------------------------------------------------------- per-file lists

  /** The lists `f` gives for the files, concatenated in file order. */
  function Concat<T>(files: seq<string>, f: string -> seq<T>): seq<T> {
    if |files| == 0 then []
    else Concat(files[..|files| - 1], f) + f(files[|files| - 1])
  }

  /** The sum of the lengths of the lists `f` gives for the files. */
  function Total<T>(files: seq<string>, f: string -> seq<T>): nat {
    if |files| == 0 then 0
    else Total(files[..|files| - 1], f) + |f(files[|files| - 1])|
  }

  /** The concatenation is as long as the lengths add up to. */
  lemma {:induction false} ConcatLength<T>(files: seq<string>, f: string -> seq<T>)
    ensures |Concat(files, f)| == Total(files, f)
  {
    if |files| > 0 {
      ConcatLength(files[..|files| - 1], f);
    }
  }

  /** Lists of equal lengths give equal totals. */
  lemma {:induction false} TotalOfSameLengths<T, U>(files: seq<string>, f: string -> seq<T>, g: string -> seq<U>)
    requires forall k :: 0 <= k < |files| ==> |f(files[k])| == |g(files[k])|
    ensures Total(files, f) == Total(files, g)
  {
    if |files| > 0 {
      TotalOfSameLengths(files[..|files| - 1], f, g);
    }
  }

  /** Taking one more file appends its list. */
  lemma ConcatStep<T>(files: seq<string>, f: string -> seq<T>, p: nat)
    requires p < |files|
    ensures Concat(files[..p + 1], f) == Concat(files[..p], f) + f(files[p])
    ensures Total(files[..p + 1], f) == Total(files[..p], f) + |f(files[p])|
  {
    assert files[..p + 1][..p] == files[..p];
  }

  /** An element from the first `m` files keeps its position in the whole concatenation. */
  lemma {:induction false} ConcatPrefixAt<T>(files: seq<string>, f: string -> seq<T>, m: nat, i: nat)
    requires m <= |files| && i < |Concat(files[..m], f)|
    ensures i < |Concat(files, f)|
    ensures Concat(files, f)[i] == Concat(files[..m], f)[i]
    decreases |files|
  {
    if m == |files| {
      assert files[..m] == files;
    } else {
      var init := files[..|files| - 1];
      assert init[..m] == files[..m];
      ConcatPrefixAt(init, f, m, i);
    }
  }

  /** Element `c` of file `p`'s list sits at the total of the files before it plus `c`. */
  lemma ConcatAt<T>(files: seq<string>, f: string -> seq<T>, p: nat, c: nat)
    requires p < |files| && c < |f(files[p])|
    ensures Total(files[..p], f) + c < |Concat(files, f)|
    ensures Concat(files, f)[Total(files[..p], f) + c] == f(files[p])[c]
  {
    ConcatStep(files, f, p);
    ConcatLength(files[..p], f);
    ConcatPrefixAt(files, f, p + 1, Total(files[..p], f) + c);
  }

  // ---------------------------------------------------------------- ingestion

  /** Each file's tagged chunks, as a function of its path. */
  function ChunksOf(load: string -> seq<Chunk>, split: seq<Chunk> -> seq<Chunk>): string -> seq<Chunk> {
    path => PdfChunks(path, load, split)
  }

  /** Each file's split chunks before tagging, as a function of its path. */
  function SplitsOf(load: string -> seq<Chunk>, split: seq<Chunk> -> seq<Chunk>): string -> seq<Chunk> {
    path => split(load(path))
  }

  /** Reference definition: the tagged chunk lists of the PDFs, concatenated in file order. */
  function AllChunks(pdfs: seq<string>, load: string -> seq<Chunk>,
                     split: seq<Chunk> -> seq<Chunk>): seq<Chunk>
  {
    Concat(pdfs, ChunksOf(load, split))
  }

  function TotalPages(pdfs: seq<string>, load: string -> seq<Chunk>): nat {
    Total(pdfs, load)
  }

  function TotalChunks(pdfs: seq<string>, load: string -> seq<Chunk>,
                       split: seq<Chunk> -> seq<Chunk>): nat {
    Total(pdfs, SplitsOf(load, split))
  }

  /** The chunks of the PDFs before index `p`: where PDF `p`'s chunks start. */
  function Offset(pdfs: seq<string>, p: nat, load: string -> seq<Chunk>,
                  split: seq<Chunk> -> seq<Chunk>): nat
    requires p <= |pdfs|
  {
    TotalChunks(pdfs[..p], load, split)
  }

  /** The documents number exactly the chunks counted. */
  lemma AllChunksLength(pdfs: seq<string>, load: string -> seq<Chunk>,
                        split: seq<Chunk> -> seq<Chunk>)
    ensures |AllChunks(pdfs, load, split)| == TotalChunks(pdfs, load, split)
  {
    ConcatLength(pdfs, ChunksOf(load, split));
    TotalOfSameLengths(pdfs, ChunksOf(load, split), SplitsOf(load, split));
  }

  /** Chunk `c` of one PDF keeps the text of its split and is tagged with the
      company name of the file. */
  lemma PdfChunkTagged(path: string, load: string -> seq<Chunk>,
                       split: seq<Chunk> -> seq<Chunk>, c: nat)
    requires c < |split(load(path))|
    ensures c < |PdfChunks(path, load, split)|
    ensures var chunk := PdfChunks(path, load, split)[c];
      && chunk.pageContent == split(load(path))[c].pageContent
      && "company" in chunk.metadata
      && chunk.metadata["company"] == Str(CompanyNameOf(path))
  {
  }

  /** Chunk `c` of PDF `p` sits at `Offset(p) + c`, carrying the text of that
      split and `company` equal to that PDF's derived name. */
  lemma ChunkProvenance(pdfs: seq<string>, load: string -> seq<Chunk>,
                        split: seq<Chunk> -> seq<Chunk>, p: nat, c: nat)
    requires p < |pdfs| && c < |split(load(pdfs[p]))|
    ensures Offset(pdfs, p, load, split) + c < |AllChunks(pdfs, load, split)|
    ensures var chunk := AllChunks(pdfs, load, split)[Offset(pdfs, p, load, split) + c];
      && chunk.pageContent == split(load(pdfs[p]))[c].pageContent
      && "company" in chunk.metadata
      && chunk.metadata["company"] == Str(CompanyNameOf(pdfs[p]))
  {
    var chunksOf := ChunksOf(load, split);
    PdfChunkTagged(pdfs[p], load, split, c);
    ConcatAt(pdfs, chunksOf, p, c);
    TotalOfSameLengths(pdfs[..p], chunksOf, SplitsOf(load, split));
    var at := Offset(pdfs, p, load, split) + c;
    assert at == Total(pdfs[..p], chunksOf) + c;
    assert AllChunks(pdfs, load, split)[at] == PdfChunks(pdfs[p], load, split)[c];
  }

  /** `build_from_pdfs` up to the embedding: the documents handed to the index
      and the page and chunk totals it reports. */
  method BuildFromPdfs(pdfFiles: seq<string>, load: string -> seq<Chunk>,
                       split: seq<Chunk> -> seq<Chunk>)
    returns (docs: seq<Chunk>, totalPages: nat, totalChunks: nat)
    ensures docs == AllChunks(pdfFiles, load, split)
    ensures totalPages == TotalPages(pdfFiles, load)
    ensures totalChunks == TotalChunks(pdfFiles, load, split) == |docs|
  {
    docs := [];
    totalPages := 0;
    totalChunks := 0;
    for i := 0 to |pdfFiles|
      invariant docs == AllChunks(pdfFiles[..i], load, split)
      invariant totalPages == TotalPages(pdfFiles[..i], load)
      invariant totalChunks == TotalChunks(pdfFiles[..i], load, split)
    {
      var pdf := pdfFiles[i];
      var companyName := CompanyNameOf(pdf);
      var pages := load(pdf);
      totalPages := totalPages + |pages|;
      var splits := split(pages);
      totalChunks := totalChunks + |splits|;
      var tagged := Tag(splits, companyName);
      docs := docs + tagged;
      ConcatStep(pdfFiles, ChunksOf(load, split), i);
      ConcatStep(pdfFiles, load, i);
      ConcatStep(pdfFiles, SplitsOf(load, split), i);
    }
    assert pdfFiles[..|pdfFiles|] == pdfFiles;
    AllChunksLength(pdfFiles, load, split);
  }
}
