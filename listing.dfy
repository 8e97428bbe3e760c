/** Directory listings as the controllers see them: entries of a directory,
    compared by file name character by character, a proper prefix first (as
    `String.compareTo` does, except that characters here are code points
    where Java compares UTF-16 code units), and sorted by that order. The file system
    itself is not modelled: a listing is given as a sequence of entries. */
module Listing {
  import opened Common

  /** One entry of a directory listing. */
  datatype DirEntry = DirEntry(name: string, isDirectory: bool, size: int)

  /** `a.compareTo(b) <= 0`. */
  predicate NameLe(a: string, b: string)
    decreases |a|
  {
    |a| == 0 || (|b| > 0 && (a[0] < b[0] || (a[0] == b[0] && NameLe(a[1..], b[1..]))))
  }

  lemma {:induction false} NameLeTotal(a: string, b: string)
    ensures NameLe(a, b) || NameLe(b, a)
    decreases |a|
  {
    if |a| > 0 && |b| > 0 && a[0] == b[0] {
      NameLeTotal(a[1..], b[1..]);
    }
  }

  lemma {:induction false} NameLeTransitive(a: string, b: string, c: string)
    requires NameLe(a, b) && NameLe(b, c)
    ensures NameLe(a, c)
    decreases |a|
  {
    if |a| > 0 && a[0] == b[0] && b[0] == c[0] {
      NameLeTransitive(a[1..], b[1..], c[1..]);
    }
  }

  lemma {:induction false} NameLeAntisymmetric(a: string, b: string)
    requires NameLe(a, b) && NameLe(b, a)
    ensures a == b
    decreases |a|
  {
    if |a| > 0 {
      NameLeAntisymmetric(a[1..], b[1..]);
      assert a == [a[0]] + a[1..] && b == [b[0]] + b[1..];
    }
  }

  predicate SortedByName(s: seq<DirEntry>) {
    forall i, j :: 0 <= i < j < |s| ==> NameLe(s[i].name, s[j].name)
  }

  function Insert(e: DirEntry, s: seq<DirEntry>): (r: seq<DirEntry>)
    ensures |r| == |s| + 1
  {
    if |s| == 0 then [e]
    else if NameLe(e.name, s[0].name) then [e] + s
    else [s[0]] + Insert(e, s[1..])
  }

  /** `sorted(Comparator.comparing(name))` on a listing. */
  function SortByName(s: seq<DirEntry>): (r: seq<DirEntry>)
    ensures |r| == |s|
  {
    if |s| == 0 then [] else Insert(s[0], SortByName(s[1..]))
  }

  lemma {:induction false} InsertPermutes(e: DirEntry, s: seq<DirEntry>)
    ensures multiset(Insert(e, s)) == multiset(s) + multiset{e}
  {
    if |s| > 0 && !NameLe(e.name, s[0].name) {
      InsertPermutes(e, s[1..]);
      assert s == [s[0]] + s[1..];
    }
  }

  /** A name no greater than `e` and every name of `s` is no greater than any
      name of `Insert(e, s)`. */
  lemma {:induction false} InsertBelow(x: string, e: DirEntry, s: seq<DirEntry>)
    requires NameLe(x, e.name) && forall k :: 0 <= k < |s| ==> NameLe(x, s[k].name)
    ensures forall k :: 0 <= k < |Insert(e, s)| ==> NameLe(x, Insert(e, s)[k].name)
  {
    if |s| > 0 && !NameLe(e.name, s[0].name) {
      InsertBelow(x, e, s[1..]);
    }
  }

  lemma {:induction false} InsertSorted(e: DirEntry, s: seq<DirEntry>)
    requires SortedByName(s)
    ensures SortedByName(Insert(e, s))
    ensures multiset(Insert(e, s)) == multiset(s) + multiset{e}
  {
    InsertPermutes(e, s);
    if |s| > 0 {
      if NameLe(e.name, s[0].name) {
        forall j | 0 < j < |s| ensures NameLe(e.name, s[j].name) {
          NameLeTransitive(e.name, s[0].name, s[j].name);
        }
      } else {
        NameLeTotal(e.name, s[0].name);
        InsertSorted(e, s[1..]);
        InsertBelow(s[0].name, e, s[1..]);
      }
    }
  }

  /** The sorted listing is in name order and holds exactly the entries listed. */
  lemma {:induction false} SortByNameCorrect(s: seq<DirEntry>)
    ensures SortedByName(SortByName(s))
    ensures multiset(SortByName(s)) == multiset(s)
  {
    if |s| > 0 {
      SortByNameCorrect(s[1..]);
      InsertSorted(s[0], SortByName(s[1..]));
      assert s == [s[0]] + s[1..];
    }
  }

  /** `.filter(Files::isRegularFile)`. */
  function RegularFiles(s: seq<DirEntry>): (r: seq<DirEntry>)
    ensures forall k :: 0 <= k < |r| ==> r[k] in s && !r[k].isDirectory
    ensures forall e :: e in s && !e.isDirectory ==> e in r
  {
    if |s| == 0 then []
    else (if s[0].isDirectory then [] else [s[0]]) + RegularFiles(s[1..])
  }

  /** `.limit(n)`. */
  function Take<T>(s: seq<T>, n: nat): (r: seq<T>)
    ensures |r| == Min(|s|, n) && r == s[..|r|]
  {
    if |s| <= n then s else s[..n]
  }
}
