/** The drive page: a name search over the user's files, the icon each file type is
    drawn with, and the empty state that offers an upload only when nothing is
    being searched for. */
module Drive {
  import opened Seqs
  import opened Text

  datatype DriveFile = DriveFile(id: int, name: string, fileType: string, size: string, modified: string)

  const Files: seq<DriveFile> := [
    DriveFile(1, "Assignment 1.pdf", "pdf", "2.4 MB", "2023-04-15"),
    DriveFile(2, "Lecture Notes.docx", "docx", "1.8 MB", "2023-04-14"),
    DriveFile(3, "Project Presentation.pptx", "pptx", "5.2 MB", "2023-04-13"),
    DriveFile(4, "Study Schedule.xlsx", "xlsx", "0.9 MB", "2023-04-12"),
    DriveFile(5, "Campus Map.jpg", "jpg", "3.1 MB", "2023-04-11"),
    DriveFile(6, "Research Paper.pdf", "pdf", "4.7 MB", "2023-04-10"),
    DriveFile(7, "Code Samples.zip", "zip", "8.3 MB", "2023-04-09"),
    DriveFile(8, "Lab Report.pdf", "pdf", "2.1 MB", "2023-04-08")
  ]

  predicate NameMatches(f: DriveFile, query: string)
  {
    Includes(Lower(f.name), Lower(query))
  }

  function NameTest(query: string): DriveFile -> bool
  {
    (f: DriveFile) => NameMatches(f, query)
  }

  /** `filteredFiles`. */
  function FilterFiles(files: seq<DriveFile>, query: string): (r: seq<DriveFile>)
    ensures forall i :: 0 <= i < |r| ==> r[i] in files && NameMatches(r[i], query)
    ensures forall i :: 0 <= i < |files| && NameMatches(files[i], query) ==> files[i] in r
    ensures forall f :: multiset(r)[f] == if NameMatches(f, query) then multiset(files)[f] else 0
  {
    Filter(NameTest(query), files)
  }

  lemma FilterKeepsOrder(files: seq<DriveFile>, query: string)
    ensures IsSubsequence(FilterFiles(files, query), files)
  {
    FilterIsSubsequence(NameTest(query), files);
  }

  lemma EmptyQueryKeepsAll(files: seq<DriveFile>)
    ensures FilterFiles(files, "") == files
  {
    forall i | 0 <= i < |files| ensures NameTest("")(files[i]) {
      IncludesEmpty(Lower(files[i].name));
    }
    FilterKeepsAll(NameTest(""), files);
  }

  function Names(files: seq<DriveFile>): (r: seq<string>)
    ensures |r| == |files|
  {
    if files == [] then [] else [files[0].name] + Names(files[1..])
  }

  lemma {:induction false} NamesConcat(a: seq<DriveFile>, b: seq<DriveFile>)
    ensures Names(a + b) == Names(a) + Names(b)
  {
    if a == [] {
      assert a + b == b;
    } else {
      assert (a + b)[0] == a[0];
      assert (a + b)[1..] == a[1..] + b;
      NamesConcat(a[1..], b);
    }
  }

  /** Only the name is searched: two tables with the same names in the same order
      give selections with the same names, whatever the types, sizes and dates. */
  lemma {:induction false} OnlyNameIsSearched(a: seq<DriveFile>, b: seq<DriveFile>, query: string)
    requires Names(a) == Names(b)
    ensures Names(FilterFiles(a, query)) == Names(FilterFiles(b, query))
  {
    if a != [] {
      assert Names(a)[0] == a[0].name && Names(b)[0] == b[0].name;
      assert Names(a)[1..] == Names(a[1..]) && Names(b)[1..] == Names(b[1..]);
      OnlyNameIsSearched(a[1..], b[1..], query);
      var p := NameTest(query);
      var ha := if p(a[0]) then [a[0]] else [];
      var hb := if p(b[0]) then [b[0]] else [];
      NamesConcat(ha, FilterFiles(a[1..], query));
      NamesConcat(hb, FilterFiles(b[1..], query));
      assert Names(ha) == Names(hb);
    }
  }

  datatype Glyph = FileText | ImageIcon | FileArchive | PlainFile

  datatype Color = Red | Blue | Orange | Green | Purple | Yellow | Gray

  datatype Icon = Icon(glyph: Glyph, color: Color)

  /** `getFileIcon`: the switch over the type string. */
  function FileIcon(fileType: string): (icon: Icon)
    ensures icon.glyph == FileText <==> fileType in {"pdf", "docx", "pptx", "xlsx"}
    ensures icon.glyph == ImageIcon <==> fileType in {"jpg", "png"}
    ensures icon.glyph == FileArchive <==> fileType == "zip"
    ensures icon == Icon(PlainFile, Gray) <==> fileType !in {"pdf", "docx", "pptx", "xlsx", "jpg", "png", "zip"}
  {
    match fileType
    case "pdf" => Icon(FileText, Red)
    case "docx" => Icon(FileText, Blue)
    case "pptx" => Icon(FileText, Orange)
    case "xlsx" => Icon(FileText, Green)
    case "jpg" => Icon(ImageIcon, Purple)
    case "png" => Icon(ImageIcon, Purple)
    case "zip" => Icon(FileArchive, Yellow)
    case _ => Icon(PlainFile, Gray)
  }

  /** The four document types get four different colors; the two image types share one icon. */
  lemma IconsDistinguishDocuments()
    ensures FileIcon("jpg") == FileIcon("png")
    ensures forall t, u :: t in {"pdf", "docx", "pptx", "xlsx"} && u in {"pdf", "docx", "pptx", "xlsx"} && t != u ==>
              FileIcon(t) != FileIcon(u)
  {
  }

  /** The empty state's text: the query is quoted only when it is non-empty. */
  function EmptyStateText(query: string): (t: string)
    ensures query != "" ==> Includes(t, "\"" + query + "\"")
    ensures query == "" ==> t == "Upload files to get started"
  {
    if query != "" then
      var t := "We couldn't find any files matching \"" + query + "\"";
      assert t == "We couldn't find any files matching " + ("\"" + query + "\"") + "";
      IncludesSpliced("We couldn't find any files matching ", "\"" + query + "\"", "");
      t
    else
      "Upload files to get started"
  }

  /** `!searchQuery && <Upload Files button>`. */
  predicate ShowsUploadButton(query: string)
  {
    query == ""
  }

  /** The "Upload Files" button shows only in an empty state reached with no query,
      which happens only when the drive holds no file at all. */
  lemma UploadButtonOnlyForEmptyDrive(files: seq<DriveFile>, query: string)
    requires |FilterFiles(files, query)| == 0 && ShowsUploadButton(query)
    ensures files == []
  {
    EmptyQueryKeepsAll(files);
  }
}
