/** The file comparison (Assignment-2/cmp.c) on ASCII files. */
module FileCompare {

  type Ascii = c: nat | c < 128

  const NEWLINE: Ascii := '\n' as nat
  const EOF: int := -1

  function ToUpper(c: Ascii): (u: Ascii)
    ensures if 'a' as nat <= c <= 'z' as nat then u as int - 'A' as int == c as int - 'a' as int else u == c
  {
    if 97 <= c <= 122 then c - 32 else c
  }

  /** c is the capital of the small letter d. */
  predicate Capital(c: Ascii, d: Ascii) {
    'A' as nat <= c <= 'Z' as nat && d == c + ('a' as nat - 'A' as nat)
  }

  /** Ignoring case identifies two characters exactly when they are equal or the two cases of one letter. */
  lemma CaseIgnored(c: Ascii, d: Ascii)
    ensures ToUpper(c) == ToUpper(d) <==> c == d || Capital(c, d) || Capital(d, c)
  {
  }

  /** A character as it is compared. */
  function Seen(c: Ascii, ignore: bool): Ascii {
    if ignore then ToUpper(c) else c
  }

  function SeenAll(s: seq<Ascii>, ignore: bool): (r: seq<Ascii>)
    ensures |r| == |s| && forall i :: 0 <= i < |s| ==> r[i] == Seen(s[i], ignore)
  {
    seq(|s|, i requires 0 <= i < |s| => Seen(s[i], ignore))
  }

  function Newlines(s: seq<Ascii>): nat {
    if s == [] then 0 else Newlines(s[..|s| - 1]) + if s[|s| - 1] == NEWLINE then 1 else 0
  }

  lemma {:induction false} NewlinesAreCounted(s: seq<Ascii>)
    ensures Newlines(s) == multiset(s)[NEWLINE]
  {
    if s != [] {
      NewlinesAreCounted(s[..|s| - 1]);
      assert s == s[..|s| - 1] + [s[|s| - 1]];
    }
  }

  /** How many characters follow the last newline. */
  function SinceNewline(s: seq<Ascii>): nat {
    if s == [] || s[|s| - 1] == NEWLINE then 0 else SinceNewline(s[..|s| - 1]) + 1
  }

  lemma {:induction false} SinceNewlineIsColumn(s: seq<Ascii>)
    ensures var n := SinceNewline(s);
            && n <= |s| && (forall j :: |s| - n <= j < |s| ==> s[j] != NEWLINE)
            && (n < |s| ==> s[|s| - n - 1] == NEWLINE)
  {
    if s != [] && s[|s| - 1] != NEWLINE {
      SinceNewlineIsColumn(s[..|s| - 1]);
    }
  }

  /** The length of the common prefix, as compared. */
  function Agreement(a: seq<Ascii>, b: seq<Ascii>, ignore: bool, i: nat): (p: nat)
    requires i <= |a| && i <= |b|
    ensures i <= p <= |a| && p <= |b|
    ensures forall j :: i <= j < p ==> Seen(a[j], ignore) == Seen(b[j], ignore)
    ensures p < |a| && p < |b| ==> Seen(a[p], ignore) != Seen(b[p], ignore)
    decreases |a| - i
  {
    if i < |a| && i < |b| && Seen(a[i], ignore) == Seen(b[i], ignore) then Agreement(a, b, ignore, i + 1) else i
  }

  datatype Report = Silent | Differ(line: nat, column: nat, c1: Ascii, c2: Ascii)

  function Fgetc(file: seq<Ascii>, position: nat): int {
    if position < |file| then file[position] else EOF
  }

  /** What cmp takes for equal: the same contents, or one more character in the first file. */
  predicate TakenForEqual(a: seq<Ascii>, b: seq<Ascii>, ignore: bool) {
    SeenAll(a, ignore) == SeenAll(b, ignore) ||
    (|a| == |b| + 1 && SeenAll(a[..|b|], ignore) == SeenAll(b, ignore))
  }

  /** Result 0 for equal, 1 for distinct; `report` is the place printed at a mismatch when verbose. */
  method Cmp(file1: seq<Ascii>, file2: seq<Ascii>, verbose: bool, ignore: bool) returns (r: int, report: Report)
    ensures r == if TakenForEqual(file1, file2, ignore) then 0 else 1
    ensures var p := Agreement(file1, file2, ignore, 0);
            report == if verbose && p < |file1| && p < |file2|
                      then Differ(1 + Newlines(file1[..p]), SinceNewline(file1[..p]),
                                  Seen(file1[p], ignore), Seen(file2[p], ignore))
                      else Silent
  {
    var at1, at2 := 0, 0;
    var lineNum, charNum := 1, 0;
    var equal := true;
    report := Silent;
    while true
      invariant 0 <= at1 == at2 <= |file1| && at2 <= |file2| && equal && report == Silent
      invariant forall j :: 0 <= j < at1 ==> Seen(file1[j], ignore) == Seen(file2[j], ignore)
      invariant Agreement(file1, file2, ignore, 0) == Agreement(file1, file2, ignore, at1)
      invariant lineNum == 1 + Newlines(file1[..at1]) && charNum == SinceNewline(file1[..at1])
      decreases |file1| - at1
    {
      var ch1 := Fgetc(file1, at1);
      if ch1 == EOF {
        break;
      }
      at1 := at1 + 1;
      var ch2 := Fgetc(file2, at2);
      if ch2 == EOF {
        break;
      }
      at2 := at2 + 1;
      if ignore {
        ch1 := ToUpper(ch1);
        ch2 := ToUpper(ch2);
      }
      if ch1 != ch2 {
        equal := false;
        if verbose {
          report := Differ(lineNum, charNum, ch1, ch2);
        }
        break;
      }
      assert file1[..at1][..at1 - 1] == file1[..at1 - 1];
      if ch1 == NEWLINE {
        lineNum := lineNum + 1;
        charNum := 0;
      } else {
        charNum := charNum + 1;
      }
    }
    if equal && Fgetc(file1, at1) != Fgetc(file2, at2) {
      equal := false;
    }
    Verdict(file1, file2, ignore);
    r := if equal then 0 else 1;
  }

  /** The verdict in terms of the common prefix. */
  lemma Verdict(a: seq<Ascii>, b: seq<Ascii>, ignore: bool)
    ensures TakenForEqual(a, b, ignore) <==>
            Agreement(a, b, ignore, 0) == |b| && |b| <= |a| <= |b| + 1
  {
    var p := Agreement(a, b, ignore, 0);
    var x, y := SeenAll(a, ignore), SeenAll(b, ignore);
    if p < |a| && p < |b| {
      assert x[p] != y[p];
      if |a| == |b| + 1 {
        assert SeenAll(a[..|b|], ignore)[p] == x[p];
      }
    }
  }

  /** The order of the files matters exactly when one is the other plus one character. */
  lemma OrderMatters(a: seq<Ascii>, b: seq<Ascii>, ignore: bool)
    ensures TakenForEqual(a, b, ignore) != TakenForEqual(b, a, ignore) <==>
            (|a| == |b| + 1 && SeenAll(a[..|b|], ignore) == SeenAll(b, ignore)) ||
            (|b| == |a| + 1 && SeenAll(b[..|a|], ignore) == SeenAll(a, ignore))
  {
  }
}
