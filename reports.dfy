/**
 * The reports page: the list of uploaded data files, the per-type counts and
 * filter behind its summary cards, deleting a file and uploading new ones.
 *
 * Each upload is given as its file name, the already formatted size in
 * megabytes (`(size / 1024 / 1024).toFixed(1)`), and the two clock readings
 * the page takes for it: `Date.now()` for the id and the locale-formatted
 * `new Date()` for the date.
 */
module Reports {
  import opened Wrappers
  import opened Seqs
  import opened Text
  import opened Routing

  /** The file `type` field: `'Excel' | 'CSV'`. */
  datatype FileType = Excel | Csv

  function TypeName(t: FileType): string {
    match t
    case Excel => "Excel"
    case Csv => "CSV"
  }

  datatype FileItem = FileItem(id: string, name: string, date: string, size: string, kind: FileType)

  /** The list the page starts with. */
  const InitialFiles: seq<FileItem> := [
    FileItem("1", "use-case-values-building.xlsx", "07/07/2025 05:07:16 PM", "2.4 MB", Excel),
    FileItem("2", "BIORAD-YAG-WP3 Sample data structure (1).xlsx", "07/22/2025 03:09:43 PM", "5.1 MB", Excel),
    FileItem("3", "use-cases-template (2).csv", "09/19/2025 01:24:08 PM", "0.8 MB", Csv),
    FileItem("4", "use-cases-template (2)v1.csv", "09/19/2025 01:26:52 PM", "0.9 MB", Csv),
    FileItem("5", "use-cases-template (2).csv", "09/19/2025 01:28:33 PM", "0.8 MB", Csv),
    FileItem("6", "use-cases-template (3).csv", "09/24/2025 11:38:18 AM", "1.2 MB", Csv)
  ]

  // ------------------------------------------------------------ counts and filter

  function OfType(t: FileType): FileItem -> bool {
    (f: FileItem) => f.kind == t
  }

  /** `excelFiles` / `csvFiles`: how many files have the type. */
  function CountOf(files: seq<FileItem>, t: FileType): (n: nat)
    ensures n <= |files|
  {
    |Filter(files, OfType(t))|
  }

  /** Every file is Excel or CSV, so the two counts add up to `totalFiles`. */
  lemma CountsAddUp(files: seq<FileItem>)
    ensures CountOf(files, Excel) + CountOf(files, Csv) == |files|
  {
    FilterComplement(files, OfType(Excel), OfType(Csv));
  }

  /** The page's `activeFilter`: `'all' | 'excel' | 'csv'`. */
  datatype FileFilter = AllFiles | ExcelFiles | CsvFiles

  predicate Admits(filter: FileFilter, f: FileItem) {
    match filter
    case AllFiles => true
    case ExcelFiles => f.kind == Excel
    case CsvFiles => f.kind == Csv
  }

  /** `filteredFiles`: the files the active filter admits, in list order; all of them for `'all'`. */
  function FilteredFiles(files: seq<FileItem>, filter: FileFilter): (r: seq<FileItem>)
    ensures filter == AllFiles ==> r == files
    ensures forall k :: 0 <= k < |r| ==> r[k] in files && Admits(filter, r[k])
    ensures forall k :: 0 <= k < |files| && Admits(filter, files[k]) ==> files[k] in r
    ensures |files| == 1 ==> r == (if Admits(filter, files[0]) then files else [])
  {
    match filter
    case AllFiles => files
    case ExcelFiles => Filter(files, OfType(Excel))
    case CsvFiles => Filter(files, OfType(Csv))
  }

  /** Filtering a list made of two parts filters each part and keeps them in order. */
  lemma FilteredFilesAppend(a: seq<FileItem>, b: seq<FileItem>, filter: FileFilter)
    ensures FilteredFiles(a + b, filter) == FilteredFiles(a, filter) + FilteredFiles(b, filter)
  {
    match filter
    case AllFiles =>
    case ExcelFiles => FilterAppend(a, b, OfType(Excel));
    case CsvFiles => FilterAppend(a, b, OfType(Csv));
  }

  /** A card's `value`: a number, or the status text. */
  datatype CardValue = Count(n: nat) | Label(text: string)

  datatype StatCard = StatCard(
    title: string, value: CardValue, icon: string, iconGradient: string,
    textColor: string, bgGradient: string, filter: Option<FileFilter>)

  /** `statsCards`: the total, Excel and CSV counts, and a status card without a filter. */
  function StatsCards(files: seq<FileItem>): (r: seq<StatCard>)
    ensures |r| == 4
    ensures r[0].title == "Total Files" && r[1].title == "Excel Files" &&
            r[2].title == "CSV Files" && r[3].title == "Status"
    ensures r[3].value == Label("All synced") && r[3].filter == None
  {
    [StatCard("Total Files", Count(|files|), "file-text", "gradient-teal", "#0f766e", "bg-gradient-teal", Some(AllFiles)),
     StatCard("Excel Files", Count(CountOf(files, Excel)), "file-text", "gradient-blue", "#1d4ed8", "bg-gradient-blue", Some(ExcelFiles)),
     StatCard("CSV Files", Count(CountOf(files, Csv)), "file-text", "gradient-purple", "#7e22ce", "bg-gradient-purple", Some(CsvFiles)),
     StatCard("Status", Label("All synced"), "check-circle", "gradient-green", "#15803d", "bg-gradient-green", None)]
  }

  /**
   * Each counting card shows exactly how many files its filter lists, and
   * the Excel and CSV cards add up to the total card.
   */
  lemma StatCardsMatchFilters(files: seq<FileItem>, k: int)
    requires 0 <= k < 3
    ensures var c := StatsCards(files)[k];
            c.filter.Some? && c.value == Count(|FilteredFiles(files, c.filter.value)|)
    ensures StatsCards(files)[0].value.n == StatsCards(files)[1].value.n + StatsCards(files)[2].value.n
  {
    CountsAddUp(files);
  }

  // --------------------------------------------------------------- sector title

  /** `sectorTitle`: the display name up to the first `" ("`. */
  function SectorTitle(s: Sector): string {
    BeforeFirst(DisplayName(s), " (")
  }

  lemma GrainTitle()
    ensures SectorTitle(Grain) == "Grain"
  {
    var s := DisplayName(Grain);
    assert s[5..7] == " (" && s[..5] == "Grain";
    NoPairBefore(s, " (", 5);
    BeforeFirstAt(s, " (", 5);
  }

  lemma FruitsTitle()
    ensures SectorTitle(Fruits) == "Fruits & Vegetables"
  {
    var s := DisplayName(Fruits);
    assert s[19..21] == " (" && s[..19] == "Fruits & Vegetables";
    NoPairBefore(s, " (", 19);
    BeforeFirstAt(s, " (", 19);
  }

  lemma FishTitle()
    ensures SectorTitle(Fish) == "Fish"
  {
    var s := DisplayName(Fish);
    assert s[4..6] == " (" && s[..4] == "Fish";
    NoPairBefore(s, " (", 4);
    BeforeFirstAt(s, " (", 4);
  }

  /** The titles are the display names without the country in parentheses. */
  lemma SectorTitles()
    ensures SectorTitle(Grain) == "Grain"
    ensures SectorTitle(Fruits) == "Fruits & Vegetables"
    ensures SectorTitle(Fish) == "Fish"
  {
    GrainTitle();
    FruitsTitle();
    FishTitle();
  }

  // ------------------------------------------------------------------ uploads

  /**
   * One chosen file: its name, its size in megabytes as `toFixed(1)` renders
   * it, and the clock readings taken while mapping it (milliseconds, and the
   * formatted date).
   */
  datatype Upload = Upload(name: string, megabytes: string, now: nat, date: string)

  /** `name.endsWith('.csv') ? 'CSV' : 'Excel'`. */
  function TypeFromName(name: string): (t: FileType)
    ensures t == Csv <==> EndsWith(name, ".csv")
  {
    if EndsWith(name, ".csv") then Csv else Excel
  }

  /** The entries `onFileUpload` makes, one per chosen file and in the order chosen. */
  function NewFileItems(uploads: seq<Upload>): (r: seq<FileItem>)
    ensures |r| == |uploads|
    ensures forall i :: 0 <= i < |r| ==>
              r[i].id == DashJoin(uploads[i].now, i) && r[i].name == uploads[i].name && r[i].date == uploads[i].date &&
              r[i].size == uploads[i].megabytes + " MB" &&
              (r[i].kind == Csv <==> EndsWith(uploads[i].name, ".csv"))
  {
    seq(|uploads|, i requires 0 <= i < |uploads| =>
      FileItem(DashJoin(uploads[i].now, i), uploads[i].name, uploads[i].date, uploads[i].megabytes + " MB",
               TypeFromName(uploads[i].name)))
  }

  /** The files of one upload get distinct ids, whatever the clock reads for each: the index differs. */
  lemma UploadIdsDistinct(uploads: seq<Upload>, i: int, j: int)
    requires 0 <= i < j < |uploads|
    ensures NewFileItems(uploads)[i].id != NewFileItems(uploads)[j].id
  {
    if DashJoin(uploads[i].now, i) == DashJoin(uploads[j].now, j) {
      DashJoinInjective(uploads[i].now, i, uploads[j].now, j);
    }
  }

  /**
   * Files of two uploads share an id only when both the clock reading and the
   * index agree; different milliseconds always give different ids.
   */
  lemma UploadIdsDiffer(u: seq<Upload>, v: seq<Upload>, i: int, j: int)
    requires 0 <= i < |u| && 0 <= j < |v|
    requires u[i].now != v[j].now || i != j
    ensures NewFileItems(u)[i].id != NewFileItems(v)[j].id
  {
    if DashJoin(u[i].now, i) == DashJoin(v[j].now, j) {
      DashJoinInjective(u[i].now, i, v[j].now, j);
    }
  }

  /** An uploaded file's id (digits, a dash, digits) never matches one of the initial single-digit ids. */
  lemma UploadIdsAvoidInitial(uploads: seq<Upload>, i: int, j: int)
    requires 0 <= i < |uploads| && 0 <= j < |InitialFiles|
    ensures NewFileItems(uploads)[i].id != InitialFiles[j].id
  {
    assert |InitialFiles[j].id| == 1;
    assert |DashJoin(uploads[i].now, i)| >= 3;
  }

  function NamedAs(t: FileType): Upload -> bool {
    (u: Upload) => TypeFromName(u.name) == t
  }

  /** After an upload the CSV count grows by the number of chosen `.csv` names, the Excel count by the rest. */
  lemma UploadCounts(uploads: seq<Upload>, files: seq<FileItem>, t: FileType)
    ensures CountOf(NewFileItems(uploads) + files, t) == |Filter(uploads, NamedAs(t))| + CountOf(files, t)
  {
    FilterAppend(NewFileItems(uploads), files, OfType(t));
    FilterLengthsAgree(NewFileItems(uploads), OfType(t), uploads, NamedAs(t));
  }

  function OtherId(id: string): FileItem -> bool {
    (f: FileItem) => f.id != id
  }

  /** Deleting an id that no file has leaves the list as it was. */
  lemma DeleteAbsentIsNoop(files: seq<FileItem>, id: string)
    requires forall k :: 0 <= k < |files| ==> files[k].id != id
    ensures Filter(files, OtherId(id)) == files
  {
    FilterAll(files, OtherId(id));
  }

  // ------------------------------------------------------------------ styling

  /** `getFileIconGradient`: green for `'Excel'`, blue for anything else. */
  function FileIconGradient(typeName: string): (r: string)
    ensures r == "gradient-green" <==> typeName == "Excel"
    ensures r == "gradient-blue" <==> typeName != "Excel"
  {
    if typeName == "Excel" then "gradient-green" else "gradient-blue"
  }

  datatype BadgeStyle = BadgeStyle(bg: string, color: string)

  /** `getTypeBadgeStyle`: green on light green for `'Excel'`, blue on light blue otherwise. */
  function TypeBadgeStyle(typeName: string): (r: BadgeStyle)
    ensures r == BadgeStyle("#dcfce7", "#15803d") <==> typeName == "Excel"
    ensures r == BadgeStyle("#dbeafe", "#1d4ed8") <==> typeName != "Excel"
  {
    if typeName == "Excel" then BadgeStyle("#dcfce7", "#15803d") else BadgeStyle("#dbeafe", "#1d4ed8")
  }

  /** The two file types are styled apart. */
  lemma TypeStylesDiffer()
    ensures FileIconGradient(TypeName(Excel)) != FileIconGradient(TypeName(Csv))
    ensures TypeBadgeStyle(TypeName(Excel)) != TypeBadgeStyle(TypeName(Csv))
  {
  }

  // ------------------------------------------------------------ the component

  class ReportsComponent {
    var sector: Sector
    var activeTab: string
    var activeFilter: FileFilter
    var files: seq<FileItem>

    constructor()
      ensures sector == Grain && activeTab == "files" && activeFilter == AllFiles && files == InitialFiles
    {
      sector, activeTab, activeFilter, files := Grain, "files", AllFiles, InitialFiles;
    }

    method NgOnInit(routeSector: Option<Sector>, currentSector: Option<Sector>)
      modifies this
      ensures sector == ResolveSector(routeSector, currentSector)
      ensures activeTab == old(activeTab) && activeFilter == old(activeFilter) && files == old(files)
    {
      sector := ResolveSector(routeSector, currentSector);
    }

    /** `onFilterChange`: a card without a filter (`null`) leaves the active filter alone. */
    method OnFilterChange(filter: Option<FileFilter>)
      modifies this
      ensures activeFilter == (if filter.Some? then filter.value else old(activeFilter))
      ensures sector == old(sector) && activeTab == old(activeTab) && files == old(files)
    {
      if filter.Some? {
        activeFilter := filter.value;
      }
    }

    method OnTabChange(tab: string)
      modifies this
      ensures activeTab == tab
      ensures sector == old(sector) && activeFilter == old(activeFilter) && files == old(files)
    {
      activeTab := tab;
    }

    /** `onDelete`: every file with the given file's id goes; the rest stay in order. */
    method OnDelete(file: FileItem)
      modifies this
      ensures files == Filter(old(files), OtherId(file.id))
      ensures forall k :: 0 <= k < |files| ==> files[k].id != file.id
      ensures forall k :: 0 <= k < |old(files)| && old(files)[k].id != file.id ==> old(files)[k] in files
      ensures sector == old(sector) && activeTab == old(activeTab) && activeFilter == old(activeFilter)
    {
      files := Filter(files, OtherId(file.id));
    }

    /** `onFileUpload`: nothing for an empty choice; otherwise the new entries go first and the files tab opens. */
    method OnFileUpload(uploads: seq<Upload>)
      modifies this
      ensures |uploads| == 0 ==> files == old(files) && activeTab == old(activeTab)
      ensures |uploads| > 0 ==> files == NewFileItems(uploads) + old(files) && activeTab == "files"
      ensures files[|files| - |old(files)|..] == old(files)
      ensures sector == old(sector) && activeFilter == old(activeFilter)
    {
      if |uploads| > 0 {
        files := NewFileItems(uploads) + files;
        activeTab := "files";
      }
    }
  }
}
