/** `ExpenseTrackerProcessor`, a sample plugin: it reads comma- or
    pipe-separated expense files, files each expense under the first category
    one of whose keywords its description mentions, and writes an HTML report.
    Reading a file is a given function (its lines, or the exception's class
    name and message), as is `Double.parseDouble`; the report itself is not
    modelled. */
module Expense {
  import opened Common
  import opened Plugin

  // -------------------------------------------------------- splitLine

  /** The state of `splitLine` after some characters: the finished fields,
      the field being built, and whether a quote is open. */
  datatype SplitState = SplitState(parts: seq<string>, current: string, inQuotes: bool)

  /** One character: a '"' toggles the quote and is dropped, a separator
      outside quotes ends the field, anything else is appended. */
  function SplitStep(st: SplitState, c: char, sep: char): SplitState {
    if c == '"' then st.(inQuotes := !st.inQuotes)
    else if c == sep && !st.inQuotes then SplitState(st.parts + [st.current], "", st.inQuotes)
    else st.(current := st.current + [c])
  }

  /** The state after reading `s`. */
  function Scan(s: string, sep: char): SplitState
    decreases |s|
  {
    if |s| == 0 then SplitState([], "", false)
    else SplitStep(Scan(s[..|s| - 1], sep), s[|s| - 1], sep)
  }

  /** The fields `splitLine(s, sep)` returns. */
  function SplitFields(s: string, sep: char): seq<string> {
    var st := Scan(s, sep);
    st.parts + [st.current]
  }

  /** `splitLine(line, sep)`. */
  method SplitLine(line: string, sep: char) returns (parts: seq<string>)
    ensures parts == SplitFields(line, sep)
  {
    var done: seq<string> := [];
    var current: string := "";
    var inQuotes := false;
    for i := 0 to |line|
      invariant Scan(line[..i], sep) == SplitState(done, current, inQuotes)
    {
      assert line[..i + 1][..i] == line[..i];
      var c := line[i];
      if c == '"' {
        inQuotes := !inQuotes;
      } else if c == sep && !inQuotes {
        done := done + [current];
        current := "";
      } else {
        current := current + [c];
      }
    }
    assert line[..|line|] == line;
    parts := done + [current];
  }

  /** The number of '"' in `s`. */
  function Quotes(s: string): nat
    decreases |s|
  {
    if |s| == 0 then 0 else Quotes(s[..|s| - 1]) + (if s[|s| - 1] == '"' then 1 else 0)
  }

  /** Whether the character after `prefix` is a separator outside quotes. */
  predicate UnquotedSep(prefix: string, c: char, sep: char) {
    c != '"' && c == sep && Quotes(prefix) % 2 == 0
  }

  /** The separators of `s` outside quotes, counted. */
  function UnquotedSeps(s: string, sep: char): nat
    decreases |s|
  {
    if |s| == 0 then 0
    else UnquotedSeps(s[..|s| - 1], sep) + (if UnquotedSep(s[..|s| - 1], s[|s| - 1], sep) then 1 else 0)
  }

  /** `s` without its quotes and its separators outside quotes. */
  function Kept(s: string, sep: char): string
    decreases |s|
  {
    if |s| == 0 then []
    else
      var c := s[|s| - 1];
      Kept(s[..|s| - 1], sep) + (if c == '"' || UnquotedSep(s[..|s| - 1], c, sep) then [] else [c])
  }

  /** The fields joined together. */
  function Concat(fields: seq<string>): string
    decreases |fields|
  {
    if |fields| == 0 then [] else Concat(fields[..|fields| - 1]) + fields[|fields| - 1]
  }

  /** A quote is open exactly after an odd number of quotes. */
  lemma {:induction false} ScanQuotes(s: string, sep: char)
    ensures Scan(s, sep).inQuotes <==> Quotes(s) % 2 == 1
    decreases |s|
  {
    if |s| > 0 {
      ScanQuotes(s[..|s| - 1], sep);
    }
  }

  /** One field per separator outside quotes, plus one. */
  lemma {:induction false} FieldCount(s: string, sep: char)
    ensures |SplitFields(s, sep)| == UnquotedSeps(s, sep) + 1
  {
    ScanParts(s, sep);
  }

  lemma {:induction false} ScanParts(s: string, sep: char)
    ensures |Scan(s, sep).parts| == UnquotedSeps(s, sep)
    decreases |s|
  {
    if |s| > 0 {
      ScanParts(s[..|s| - 1], sep);
      ScanQuotes(s[..|s| - 1], sep);
    }
  }

  /** The fields hold, in order, every character but the quotes and the
      separators outside quotes. */
  lemma {:induction false} FieldsConcat(s: string, sep: char)
    ensures Concat(SplitFields(s, sep)) == Kept(s, sep)
  {
    ScanKept(s, sep);
    var st := Scan(s, sep);
    assert (st.parts + [st.current])[..|st.parts|] == st.parts;
  }

  lemma {:induction false} ScanKept(s: string, sep: char)
    ensures Concat(Scan(s, sep).parts) + Scan(s, sep).current == Kept(s, sep)
    decreases |s|
  {
    if |s| > 0 {
      var p := s[..|s| - 1];
      var c := s[|s| - 1];
      var st := Scan(p, sep);
      ScanKept(p, sep);
      ScanQuotes(p, sep);
      if c != '"' && c == sep && !st.inQuotes {
        assert (st.parts + [st.current])[..|st.parts|] == st.parts;
      }
    }
  }

  // ------------------------------------------------------ parseFile

  /** An expense row: date text, description, amount. */
  datatype ExpenseEntry = ExpenseEntry(dateText: string, description: string, amount: real)

  /** `replaceAll("^\"|\"$", "")`: a quote at either end goes. */
  function Unquote(s: string): string {
    var a := if |s| > 0 && s[0] == '"' then s[1..] else s;
    if |a| > 0 && a[|a| - 1] == '"' then a[..|a| - 1] else a
  }

  predicate AmountChar(c: char) { '0' <= c <= '9' || c == '.' || c == '-' }

  /** `replaceAll("[^0-9.\\-]", "")`: only digits, dots and minus signs stay. */
  function AmountText(s: string): (r: string)
    ensures forall i :: 0 <= i < |r| ==> AmountChar(r[i])
    decreases |s|
  {
    if |s| == 0 then [] else (if AmountChar(s[0]) then [s[0]] else []) + AmountText(s[1..])
  }

  /** The separator: '|' if the second line (the only line, for one line)
      holds one, else ','. */
  function DetectSeparator(lines: seq<string>): (sep: char)
    requires |lines| > 0
    ensures sep == '|' || sep == ','
    ensures sep == '|' <==> '|' in (if |lines| > 1 then lines[1] else lines[0])
  {
    var firstDataLine := if |lines| > 1 then lines[1] else lines[0];
    ContainsChar(firstDataLine, '|');
    if Contains(firstDataLine, "|") then '|' else ','
  }

  /** A header line: lower-cased, it starts with "date", "\"date" or "description". */
  predicate IsHeader(line: string) {
    var lower := ToLower(line);
    StartsWith(lower, "date") || StartsWith(lower, "\"date") || StartsWith(lower, "description")
  }

  /** The entry a trimmed, non-empty data line gives: none for fewer than
      three fields or an amount `parseDouble` refuses. */
  function RowEntry(line: string, sep: char, parseDouble: string -> Option<real>): (r: seq<ExpenseEntry>)
    ensures |r| <= 1
    ensures |r| == 1 ==> |SplitFields(line, sep)| >= 3
  {
    var parts := SplitFields(line, sep);
    if |parts| < 3 then []
    else
      var amount := parseDouble(AmountText(Trim(parts[2])));
      if amount.None? then []
      else [ExpenseEntry(Unquote(Trim(parts[0])), Unquote(Trim(parts[1])), amount.value)]
  }

  /** The loop of `parseFile` over `lines`: whether a first line has been
      seen (`headerSkipped`) and the entries so far. */
  function ParseScan(lines: seq<string>, sep: char, parseDouble: string -> Option<real>): (bool, seq<ExpenseEntry>)
    decreases |lines|
  {
    if |lines| == 0 then (false, [])
    else
      var prev := ParseScan(lines[..|lines| - 1], sep, parseDouble);
      var line := Trim(lines[|lines| - 1]);
      if |line| == 0 then prev
      else if !prev.0 && IsHeader(line) then (true, prev.1)
      else (true, prev.1 + RowEntry(line, sep, parseDouble))
  }

  lemma ParseScanStep(lines: seq<string>, sep: char, parseDouble: string -> Option<real>)
    requires |lines| > 0
    ensures var prev := ParseScan(lines[..|lines| - 1], sep, parseDouble);
      var line := Trim(lines[|lines| - 1]);
      ParseScan(lines, sep, parseDouble) ==
        if |line| == 0 then prev
        else if !prev.0 && IsHeader(line) then (true, prev.1)
        else (true, prev.1 + RowEntry(line, sep, parseDouble))
  {
  }

  /** The entries `parseFile` returns for a file's lines. */
  function ParsedEntries(lines: seq<string>, parseDouble: string -> Option<real>): seq<ExpenseEntry> {
    if |lines| == 0 then [] else ParseScan(lines, DetectSeparator(lines), parseDouble).1
  }

  /** `parseFile(path)` on the file's lines. */
  method ParseFile(lines: seq<string>, parseDouble: string -> Option<real>) returns (entries: seq<ExpenseEntry>)
    ensures entries == ParsedEntries(lines, parseDouble)
  {
    entries := [];
    if |lines| == 0 {
      return;
    }
    var sep := if Contains(lines[if |lines| > 1 then 1 else 0], "|") then '|' else ',';
    var headerSkipped := false;
    for i := 0 to |lines|
      invariant (headerSkipped, entries) == ParseScan(lines[..i], sep, parseDouble)
    {
      assert lines[..i + 1][..i] == lines[..i] && lines[..i + 1][i] == lines[i];
      var line := Trim(lines[i]);
      ParseScanStep(lines[..i + 1], sep, parseDouble);
      if |line| == 0 {
        continue;
      }
      if !headerSkipped {
        headerSkipped := true;
        if IsHeader(line) {
          continue;
        }
      }
      var parts := SplitLine(line, sep);
      if |parts| < 3 {
        assert RowEntry(line, sep, parseDouble) == [] && entries + [] == entries;
        continue;
      }
      var amount := parseDouble(AmountText(Trim(parts[2])));
      if amount.None? {
        assert RowEntry(line, sep, parseDouble) == [] && entries + [] == entries;
        continue;
      }
      var entry := ExpenseEntry(Unquote(Trim(parts[0])), Unquote(Trim(parts[1])), amount.value);
      assert RowEntry(line, sep, parseDouble) == [entry];
      entries := entries + [entry];
    }
    assert lines[..|lines|] == lines;
  }

  /** The trimmed non-empty lines, in order. */
  function NonBlank(lines: seq<string>): seq<string>
    decreases |lines|
  {
    if |lines| == 0 then []
    else
      var line := Trim(lines[|lines| - 1]);
      NonBlank(lines[..|lines| - 1]) + (if |line| == 0 then [] else [line])
  }

  /** The entries of some data lines, in order. */
  function Rows(data: seq<string>, sep: char, parseDouble: string -> Option<real>): seq<ExpenseEntry>
    decreases |data|
  {
    if |data| == 0 then []
    else Rows(data[..|data| - 1], sep, parseDouble) + RowEntry(data[|data| - 1], sep, parseDouble)
  }

  /** The data lines of a file: its trimmed non-empty lines, without the
      first one when that is a header. */
  function DataLines(lines: seq<string>): seq<string> {
    var c := NonBlank(lines);
    if |c| > 0 && IsHeader(c[0]) then c[1..] else c
  }

  /** Only the first non-empty line can be dropped as a header; every other
      non-empty line is read as data. */
  lemma {:induction false} ParseScanReadsDataLines(lines: seq<string>, sep: char, parseDouble: string -> Option<real>)
    ensures ParseScan(lines, sep, parseDouble).0 <==> |NonBlank(lines)| > 0
    ensures ParseScan(lines, sep, parseDouble).1 == Rows(DataLines(lines), sep, parseDouble)
    decreases |lines|
  {
    if |lines| > 0 {
      var p, last := lines[..|lines| - 1], lines[|lines| - 1];
      assert lines == p + [last];
      ParseScanReadsDataLines(p, sep, parseDouble);
      ParseScanStep(lines, sep, parseDouble);
      var line := Trim(last);
      if |line| == 0 {
        assert NonBlank(lines) == NonBlank(p) + [];
        assert NonBlank(lines) == NonBlank(p);
      } else {
        assert NonBlank(lines) == NonBlank(p) + [line];
        DataLinesGrow(p, last);
        if |NonBlank(p)| == 0 {
          RowsSnoc([], line, sep, parseDouble);
        } else {
          RowsSnoc(DataLines(p), line, sep, parseDouble);
        }
      }
    }
  }

  /** A non-empty last line is a data line unless it is the file's first
      non-empty line and a header. */
  lemma DataLinesGrow(p: seq<string>, last: string)
    requires |Trim(last)| > 0
    ensures var c := NonBlank(p);
      DataLines(p + [last]) ==
        if |c| == 0 then (if IsHeader(Trim(last)) then [] else [Trim(last)])
        else DataLines(p) + [Trim(last)]
  {
    var lines := p + [last];
    assert lines[..|lines| - 1] == p;
    var c := NonBlank(p);
    var line := Trim(last);
    assert NonBlank(lines) == c + [line];
    if |c| > 0 {
      assert (c + [line])[0] == c[0];
      if IsHeader(c[0]) {
        assert (c + [line])[1..] == c[1..] + [line];
      }
    }
  }

  lemma RowsSnoc(data: seq<string>, line: string, sep: char, parseDouble: string -> Option<real>)
    ensures Rows(data + [line], sep, parseDouble) == Rows(data, sep, parseDouble) + RowEntry(line, sep, parseDouble)
  {
    assert (data + [line])[..|data|] == data;
  }

  /** `parseFile` reads exactly the data lines of the file. */
  lemma ParsedEntriesAreDataRows(lines: seq<string>, parseDouble: string -> Option<real>)
    requires |lines| > 0
    ensures ParsedEntries(lines, parseDouble) == Rows(DataLines(lines), DetectSeparator(lines), parseDouble)
  {
    ParseScanReadsDataLines(lines, DetectSeparator(lines), parseDouble);
  }

  // ------------------------------------------------------- categorize

  const OTHER := "Other"

  /** `CATEGORY_KEYWORDS`, in its insertion order. */
  const CATEGORIES: seq<(string, seq<string>)> := [
    ("Housing", ["rent", "lease", "housing", "home emi", "mortgage", "property tax"]),
    ("Food", ["food", "grocery", "groceries", "restaurant", "dining", "cafe", "bakery", "takeout", "swiggy", "zomato", "lunch", "dinner", "breakfast"]),
    ("Utilities", ["electricity", "water bill", "gas bill", "internet", "broadband", "wifi", "phone", "mobile", "recharge", "utility"]),
    ("Transport", ["fuel", "petrol", "diesel", "uber", "ola", "taxi", "bus", "metro", "parking", "toll", "travel"]),
    ("Healthcare", ["medical", "medicine", "pharmacy", "hospital", "doctor", "health", "insurance", "clinic"]),
    ("Education", ["school", "college", "tuition", "books", "course", "training", "education", "udemy"]),
    ("Entertainment", ["movie", "netflix", "spotify", "subscription", "game", "concert", "streaming", "hotstar", "prime video"]),
    ("Shopping", ["amazon", "flipkart", "clothing", "shoes", "electronics", "furniture", "appliance", "mall"])
  ]

  /** The inner loop: does the text contain one of the keywords? */
  predicate AnyKeyword(lower: string, keywords: seq<string>)
    decreases |keywords|
  {
    |keywords| > 0 && (Contains(lower, keywords[0]) || AnyKeyword(lower, keywords[1..]))
  }

  /** The outer loop: the first category with a keyword in the text, else "Other". */
  function FirstCategory(lower: string, categories: seq<(string, seq<string>)>): string
    decreases |categories|
  {
    if |categories| == 0 then OTHER
    else if AnyKeyword(lower, categories[0].1) then categories[0].0
    else FirstCategory(lower, categories[1..])
  }

  /** `categorize(description)`. */
  function Categorize(description: string): string {
    FirstCategory(ToLower(description), CATEGORIES)
  }

  predicate Mentions(lower: string, keywords: seq<string>) {
    exists j :: 0 <= j < |keywords| && Contains(lower, keywords[j])
  }

  lemma {:induction false} AnyKeywordIff(lower: string, keywords: seq<string>)
    ensures AnyKeyword(lower, keywords) <==> Mentions(lower, keywords)
    decreases |keywords|
  {
    if |keywords| > 0 {
      AnyKeywordIff(lower, keywords[1..]);
      if Mentions(lower, keywords[1..]) {
        var j :| 0 <= j < |keywords[1..]| && Contains(lower, keywords[1..][j]);
        assert Contains(lower, keywords[j + 1]);
      }
      if Mentions(lower, keywords) && !Contains(lower, keywords[0]) {
        var j :| 0 <= j < |keywords| && Contains(lower, keywords[j]);
        assert j > 0 && Contains(lower, keywords[1..][j - 1]);
      }
    }
  }

  /** The search finds the first category whose keywords the text mentions,
      and "Other" exactly when it mentions none (given no category is itself
      called "Other"). */
  lemma {:induction false} FirstCategorySpec(lower: string, categories: seq<(string, seq<string>)>)
    requires forall k :: 0 <= k < |categories| ==> categories[k].0 != OTHER
    ensures var c := FirstCategory(lower, categories);
      (c == OTHER <==> forall k :: 0 <= k < |categories| ==> !Mentions(lower, categories[k].1))
      && (c != OTHER ==> exists k :: (0 <= k < |categories| && c == categories[k].0
            && Mentions(lower, categories[k].1)
            && forall m :: 0 <= m < k ==> !Mentions(lower, categories[m].1)))
    decreases |categories|
  {
    if |categories| > 0 {
      AnyKeywordIff(lower, categories[0].1);
      var rest := categories[1..];
      FirstCategorySpec(lower, rest);
      var c := FirstCategory(lower, categories);
      if !AnyKeyword(lower, categories[0].1) {
        assert forall k :: 1 <= k < |categories| ==> categories[k] == rest[k - 1];
        if c != OTHER {
          var k :| 0 <= k < |rest| && c == rest[k].0 && Mentions(lower, rest[k].1)
                   && forall m :: 0 <= m < k ==> !Mentions(lower, rest[m].1);
          assert c == categories[k + 1].0 && Mentions(lower, categories[k + 1].1);
          assert forall m :: 0 <= m < k + 1 ==> !Mentions(lower, categories[m].1) by {
            forall m | 0 <= m < k + 1 ensures !Mentions(lower, categories[m].1) {
              if m > 0 {
                assert categories[m] == rest[m - 1];
              }
            }
          }
        }
      } else {
        assert c == categories[0].0;
      }
    }
  }

  /** `categorize` answers with one of the nine labels: the first category,
      in declaration order, with a keyword in the lower-cased description,
      or "Other" when there is none. */
  lemma CategorizeSpec(description: string)
    ensures var c := Categorize(description);
      var lower := ToLower(description);
      (c == OTHER <==> forall k :: 0 <= k < |CATEGORIES| ==> !Mentions(lower, CATEGORIES[k].1))
      && (c != OTHER ==> exists k :: (0 <= k < |CATEGORIES| && c == CATEGORIES[k].0
            && Mentions(lower, CATEGORIES[k].1)
            && forall m :: 0 <= m < k ==> !Mentions(lower, CATEGORIES[m].1)))
  {
    forall k | 0 <= k < |CATEGORIES| ensures CATEGORIES[k].0 != OTHER {
      assert CATEGORIES[k].0[0] != OTHER[0];
    }
    FirstCategorySpec(ToLower(description), CATEGORIES);
  }

  /** The labels `categoryTotals` is keyed by, in its order: the categories,
      then "Other". */
  const LABELS: seq<string> := ["Housing", "Food", "Utilities", "Transport", "Healthcare", "Education", "Entertainment", "Shopping", OTHER]

  predicate Distinct(labels: seq<string>) {
    forall i, j :: 0 <= i < j < |labels| ==> labels[i] != labels[j]
  }

  /** The nine labels are the categories' names in order, then "Other", and
      no two are the same. */
  lemma LabelsAreCategories()
    ensures |LABELS| == |CATEGORIES| + 1 && LABELS[|CATEGORIES|] == OTHER
    ensures forall k :: 0 <= k < |CATEGORIES| ==> LABELS[k] == CATEGORIES[k].0
    ensures Distinct(LABELS)
  {
    forall i, j | 0 <= i < j < |LABELS| ensures LABELS[i] != LABELS[j] {
      assert |LABELS[i]| != |LABELS[j]| || LABELS[i][0] != LABELS[j][0];
    }
  }

  /** Every description is filed under one of the nine labels. */
  lemma CategorizeLabels(description: string)
    ensures Categorize(description) in LABELS
  {
    CategorizeSpec(description);
    LabelsAreCategories();
    var c := Categorize(description);
    if c != OTHER {
      var k :| 0 <= k < |CATEGORIES| && c == CATEGORIES[k].0;
      assert LABELS[k] == c;
    }
  }

  /** `f` of each entry's description, in order. */
  function MapDescriptions(entries: seq<ExpenseEntry>, f: string -> string): (r: seq<string>)
    ensures |r| == |entries|
    decreases |entries|
  {
    if |entries| == 0 then []
    else MapDescriptions(entries[..|entries| - 1], f) + [f(entries[|entries| - 1].description)]
  }

  lemma {:induction false} MapDescriptionsAt(entries: seq<ExpenseEntry>, f: string -> string, i: int)
    requires 0 <= i < |entries|
    ensures MapDescriptions(entries, f)[i] == f(entries[i].description)
    decreases |entries|
  {
    var n := |entries| - 1;
    if i < n {
      MapDescriptionsAt(entries[..n], f, i);
    }
  }

  /** The category of each entry, in order. */
  function Categorized(entries: seq<ExpenseEntry>): (cats: seq<string>)
    ensures |cats| == |entries|
  {
    MapDescriptions(entries, Categorize)
  }

  /** The sum of the amounts (in exact arithmetic). */
  function Amounts(entries: seq<ExpenseEntry>): real
    decreases |entries|
  {
    if |entries| == 0 then 0.0 else Amounts(entries[..|entries| - 1]) + entries[|entries| - 1].amount
  }

  /** `categoryTotals.get(label)`: the amounts of the entries filed under it. */
  function Total(entries: seq<ExpenseEntry>, cats: seq<string>, name: string): real
    requires |cats| == |entries|
    decreases |entries|
  {
    if |entries| == 0 then 0.0
    else
      var n := |entries| - 1;
      Total(entries[..n], cats[..n], name) + (if cats[n] == name then entries[n].amount else 0.0)
  }

  /** The totals of some labels, added up: `grandTotal` over all nine. */
  function SumTotals(entries: seq<ExpenseEntry>, cats: seq<string>, labels: seq<string>): real
    requires |cats| == |entries|
    decreases |labels|
  {
    if |labels| == 0 then 0.0
    else SumTotals(entries, cats, labels[..|labels| - 1]) + Total(entries, cats, labels[|labels| - 1])
  }

  /** `amount` counted under `c` against each label. */
  function Share(labels: seq<string>, c: string, amount: real): real
    decreases |labels|
  {
    if |labels| == 0 then 0.0
    else Share(labels[..|labels| - 1], c, amount) + (if labels[|labels| - 1] == c then amount else 0.0)
  }

  lemma {:induction false} ShareOnce(labels: seq<string>, c: string, amount: real)
    requires Distinct(labels)
    ensures c in labels ==> Share(labels, c, amount) == amount
    ensures c !in labels ==> Share(labels, c, amount) == 0.0
    decreases |labels|
  {
    if |labels| > 0 {
      var p := labels[..|labels| - 1];
      ShareOnce(p, c, amount);
      if labels[|labels| - 1] == c {
        assert c !in p;
      } else {
        assert c in labels ==> c in p;
      }
    }
  }

  /** One more entry adds its amount to each label's total as its share. */
  lemma {:induction false} SumTotalsSnoc(entries: seq<ExpenseEntry>, cats: seq<string>, labels: seq<string>)
    requires |cats| == |entries| > 0
    ensures var n := |entries| - 1;
      SumTotals(entries, cats, labels) == SumTotals(entries[..n], cats[..n], labels) + Share(labels, cats[n], entries[n].amount)
    decreases |labels|
  {
    if |labels| > 0 {
      SumTotalsSnoc(entries, cats, labels[..|labels| - 1]);
    }
  }

  /** Filed under distinct labels that cover every category, the totals add
      up to the sum of all amounts: no entry is lost or counted twice. */
  lemma {:induction false} TotalsCoverAmounts(entries: seq<ExpenseEntry>, cats: seq<string>, labels: seq<string>)
    requires |cats| == |entries| && Distinct(labels)
    requires forall i :: 0 <= i < |cats| ==> cats[i] in labels
    ensures SumTotals(entries, cats, labels) == Amounts(entries)
    decreases |entries|
  {
    if |entries| == 0 {
      NoEntriesNoTotals(entries, cats, labels);
    } else {
      var n := |entries| - 1;
      TotalsCoverAmounts(entries[..n], cats[..n], labels);
      SumTotalsSnoc(entries, cats, labels);
      ShareOnce(labels, cats[n], entries[n].amount);
    }
  }

  lemma {:induction false} NoEntriesNoTotals(entries: seq<ExpenseEntry>, cats: seq<string>, labels: seq<string>)
    requires |cats| == |entries| == 0
    ensures SumTotals(entries, cats, labels) == 0.0
    decreases |labels|
  {
    if |labels| > 0 {
      NoEntriesNoTotals(entries, cats, labels[..|labels| - 1]);
    }
  }

  /** The report's grand total is the sum of every parsed amount. */
  lemma GrandTotalIsAllAmounts(entries: seq<ExpenseEntry>)
    ensures SumTotals(entries, Categorized(entries), LABELS) == Amounts(entries)
  {
    var cats := Categorized(entries);
    forall i | 0 <= i < |cats| ensures cats[i] in LABELS {
      MapDescriptionsAt(entries, Categorize, i);
      CategorizeLabels(entries[i].description);
    }
    LabelsAreCategories();
    TotalsCoverAmounts(entries, cats, LABELS);
  }

  /** `categoriesFound`: the labels, in order, whose total is above zero. */
  function CategoriesFound(entries: seq<ExpenseEntry>, cats: seq<string>, labels: seq<string>): (found: seq<string>)
    requires |cats| == |entries|
    ensures forall l :: l in found <==> l in labels && Total(entries, cats, l) > 0.0
    decreases |labels|
  {
    if |labels| == 0 then []
    else
      var l := labels[|labels| - 1];
      CategoriesFound(entries, cats, labels[..|labels| - 1]) + (if Total(entries, cats, l) > 0.0 then [l] else [])
  }

  // ------------------------------------------------- reviewJob, processJob

  const BASE_ESTIMATE_MS := 60000

  /** `(long)(sleepMs * 1.05)`, taken as exact: 105% truncated toward zero. */
  function SleepOverhead(sleepMs: int): int {
    if sleepMs >= 0 then sleepMs * 105 / 100 else -((-sleepMs) * 105 / 100)
  }

  /** The `sleep` parameter when it is present and parses as a `long`. */
  function SleepParam(input: InputData): Option<int> {
    if input.parameters.Some? && "sleep" in input.parameters.value
    then ParseLong(Some(input.parameters.value["sleep"]))
    else None
  }

  /** `reviewJob(inputData)`: 60 s, plus 105% of a valid `sleep` parameter. */
  function ReviewJob(input: InputData): (ms: int)
    ensures SleepParam(input).None? ==> ms == BASE_ESTIMATE_MS
    ensures SleepParam(input).Some? && SleepParam(input).value >= 0 ==> ms >= BASE_ESTIMATE_MS + SleepParam(input).value
    ensures SleepParam(input).Some? && SleepParam(input).value < 0 ==> ms <= BASE_ESTIMATE_MS + SleepParam(input).value
    ensures SleepParam(input).Some? ==>
      var d := ms - BASE_ESTIMATE_MS; var s := SleepParam(input).value;
      -100 < 100 * d - 105 * s < 100
  {
    var sleep := SleepParam(input);
    if sleep.Some? then BASE_ESTIMATE_MS + SleepOverhead(sleep.value) else BASE_ESTIMATE_MS
  }

  const NO_INPUT := "NO_INPUT"
  const EMPTY_DATA := "EMPTY_DATA"
  const PROCESSING_ERROR := "PROCESSING_ERROR"
  const NO_INPUT_REASON := "No input files provided. Expected CSV or pipe-delimited expense files."
  const EMPTY_DATA_REASON := "Could not parse any expense entries from the provided files."

  /** What `processJob` produces: an output returned before any report is
      written, or the parsed and categorized entries the report is built
      from (with one category per entry). */
  datatype ExpenseRun =
    | Stopped(output: OutputData)
    | Analysed(inputDataId: Option<int>, fileCount: nat, entries: seq<ExpenseEntry>, categories: seq<string>)

  function Failure(inputDataId: Option<int>, code: string, reason: string): OutputData {
    BlankOutput.(inputDataId := inputDataId, status := Some("FAILED"), mainErrorCode := Some(code), mainErrorReason := Some(reason))
  }

  /** A file read: its lines, or the exception's simple class name and message. */
  type FileReader = string -> Result<seq<string>, (string, Option<string>)>

  /** `allEntries` after the files: the entries of each in turn, or the first
      read failure as `"<class>: <message>"`. */
  function ReadAll(files: seq<string>, read: FileReader, parseDouble: string -> Option<real>): Result<seq<ExpenseEntry>, string>
    decreases |files|
  {
    if |files| == 0 then Ok([])
    else
      var prev := ReadAll(files[..|files| - 1], read, parseDouble);
      if prev.Err? then prev
      else
        var lines := read(files[|files| - 1]);
        if lines.Err? then Err(lines.error.0 + ": " + Text(lines.error.1))
        else Ok(prev.value + ParsedEntries(lines.value, parseDouble))
  }

  /** `processJob(inputData)` up to the report: no files, a read failure, or
      no entries stop it with a FAILED output; otherwise every entry is
      categorized. */
  method ProcessJob(input: InputData, read: FileReader, parseDouble: string -> Option<real>) returns (run: ExpenseRun)
    ensures input.inputFiles.None? || |input.inputFiles.value| == 0 ==>
      run == Stopped(Failure(input.inputDataId, NO_INPUT, NO_INPUT_REASON))
    ensures input.inputFiles.Some? && |input.inputFiles.value| > 0 ==>
      var all := ReadAll(input.inputFiles.value, read, parseDouble);
      (all.Err? ==> run == Stopped(Failure(input.inputDataId, PROCESSING_ERROR, all.error)))
      && (all.Ok? && |all.value| == 0 ==> run == Stopped(Failure(input.inputDataId, EMPTY_DATA, EMPTY_DATA_REASON)))
      && (all.Ok? && |all.value| > 0 ==>
            run == Analysed(input.inputDataId, |input.inputFiles.value|, all.value, Categorized(all.value)))
  {
    if input.inputFiles.None? || |input.inputFiles.value| == 0 {
      return Stopped(Failure(input.inputDataId, NO_INPUT, NO_INPUT_REASON));
    }
    var files := input.inputFiles.value;
    var all := ReadFiles(files, read, parseDouble);
    if all.Err? {
      return Stopped(Failure(input.inputDataId, PROCESSING_ERROR, all.error));
    }
    if |all.value| == 0 {
      return Stopped(Failure(input.inputDataId, EMPTY_DATA, EMPTY_DATA_REASON));
    }
    var categories := CategorizeAll(all.value);
    run := Analysed(input.inputDataId, |files|, all.value, categories);
  }

  /** The file loop of `processJob`: each file parsed in turn, stopping at
      the first that cannot be read. */
  method ReadFiles(files: seq<string>, read: FileReader, parseDouble: string -> Option<real>)
    returns (all: Result<seq<ExpenseEntry>, string>)
    ensures all == ReadAll(files, read, parseDouble)
  {
    var entries: seq<ExpenseEntry> := [];
    for i := 0 to |files|
      invariant ReadAll(files[..i], read, parseDouble) == Ok(entries)
    {
      assert files[..i + 1][..i] == files[..i];
      var lines := read(files[i]);
      if lines.Err? {
        ReadAllStops(files, i + 1, read, parseDouble);
        return Err(lines.error.0 + ": " + Text(lines.error.1));
      }
      var parsed := ParseFile(lines.value, parseDouble);
      entries := entries + parsed;
    }
    assert files[..|files|] == files;
    all := Ok(entries);
  }

  /** The categorize loop of `processJob`. */
  method CategorizeAll(entries: seq<ExpenseEntry>) returns (categories: seq<string>)
    ensures categories == Categorized(entries)
  {
    categories := [];
    for i := 0 to |entries|
      invariant categories == MapDescriptions(entries[..i], Categorize)
    {
      assert entries[..i + 1][..i] == entries[..i];
      categories := categories + [Categorize(entries[i].description)];
    }
    assert entries[..|entries|] == entries;
  }

  /** A read failure at one file is the failure of every longer prefix. */
  lemma {:induction false} ReadAllStops(files: seq<string>, n: nat, read: FileReader, parseDouble: string -> Option<real>)
    requires 0 < n <= |files| && ReadAll(files[..n], read, parseDouble).Err?
    ensures ReadAll(files, read, parseDouble) == ReadAll(files[..n], read, parseDouble)
    decreases |files| - n
  {
    if n < |files| {
      assert files[..n + 1][..n] == files[..n];
      ReadAllStops(files, n + 1, read, parseDouble);
    } else {
      assert files[..n] == files;
    }
  }
}
