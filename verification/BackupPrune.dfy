/** Pruning the configuration backups (app/remote_apply.py:365-370, 404-410): by name, and names order by revision. */
module BackupPrune {

  /** The C locale's order of file names. */
  predicate Less(a: string, b: string) {
    if b == "" then false
    else if a == "" then true
    else a[0] < b[0] || (a[0] == b[0] && Less(a[1..], b[1..]))
  }

  lemma {:induction false} LessIsIrreflexive(a: string)
    ensures !Less(a, a)
  {
    if a != "" {
      LessIsIrreflexive(a[1..]);
    }
  }

  lemma {:induction false} LessIsTransitive(a: string, b: string, c: string)
    requires Less(a, b) && Less(b, c)
    ensures Less(a, c)
  {
    if a != "" && a[0] == b[0] == c[0] {
      LessIsTransitive(a[1..], b[1..], c[1..]);
    }
  }

  /** Equal lengths decide before anything that follows, and a common prefix does not matter. */
  lemma {:induction false} LessExtends(prefix: string, a: string, b: string, x: string, y: string)
    requires |a| == |b| && Less(a, b)
    ensures Less(prefix + a + x, prefix + b + y)
  {
    if prefix != "" {
      assert (prefix + a + x)[1..] == prefix[1..] + a + x && (prefix + b + y)[1..] == prefix[1..] + b + y;
      LessExtends(prefix[1..], a, b, x, y);
    } else {
      assert prefix + a + x == a + x && prefix + b + y == b + y;
      if a[0] == b[0] {
        assert (a + x)[1..] == "" + a[1..] + x && (b + y)[1..] == "" + b[1..] + y;
        LessExtends("", a[1..], b[1..], x, y);
      }
    }
  }

  /* ---------- zero padding ---------- */

  function Power10(k: nat): (r: nat)
    ensures r >= 1
  {
    if k == 0 then 1 else 10 * Power10(k - 1)
  }

  function Digit(d: nat): (c: char)
    requires d < 10
    ensures '0' <= c <= '9'
  {
    '0' + d as char
  }

  /** Exactly so many decimal digits, leading zeros included. */
  function Digits(n: nat, width: nat): (s: string)
    ensures |s| == width
  {
    if width == 0 then "" else Digits(n / 10, width - 1) + [Digit(n % 10)]
  }

  function DigitCount(n: nat): nat {
    if n < 10 then 1 else 1 + DigitCount(n / 10)
  }

  const WIDTH := 20

  /** printf '%020d' */
  function Padded(n: nat): string {
    Digits(n, if DigitCount(n) < WIDTH then WIDTH else DigitCount(n))
  }

  lemma {:induction false} DigitsOrder(n: nat, m: nat, width: nat)
    requires n < m < Power10(width)
    ensures Less(Digits(n, width), Digits(m, width))
  {
    var a, b := Digits(n / 10, width - 1), Digits(m / 10, width - 1);
    if n / 10 < m / 10 {
      DigitsOrder(n / 10, m / 10, width - 1);
      LessExtends("", a, b, [Digit(n % 10)], [Digit(m % 10)]);
      assert "" + a + [Digit(n % 10)] == Digits(n, width) && "" + b + [Digit(m % 10)] == Digits(m, width);
    } else {
      assert a == b && Less([Digit(n % 10)], [Digit(m % 10)]);
      LessExtends(a, [Digit(n % 10)], [Digit(m % 10)], "", "");
      assert a + [Digit(n % 10)] + "" == Digits(n, width) && b + [Digit(m % 10)] + "" == Digits(m, width);
    }
  }

  lemma {:induction false} FewDigits(n: nat, width: nat)
    requires 1 <= width && n < Power10(width)
    ensures DigitCount(n) <= width
  {
    if n >= 10 {
      FewDigits(n / 10, width - 1);
    }
  }

  /** The greatest revision the database can hold: an SQLite INTEGER is a signed 64-bit number. */
  const MAX_REVISION := 0x7FFF_FFFF_FFFF_FFFF

  lemma RevisionsFit()
    ensures MAX_REVISION < Power10(WIDTH)
  {
    assert Power10(4) == 10_000;
    assert Power10(8) == 10_000 * Power10(4);
    assert Power10(12) == 10_000 * Power10(8);
    assert Power10(16) == 10_000 * Power10(12);
    assert Power10(20) == 10_000 * Power10(16);
  }

  /** The padded texts of any two revisions the database can hold order as the numbers do, and are equally long. */
  lemma PaddedOrder(n: nat, m: nat)
    requires n <= MAX_REVISION && m <= MAX_REVISION
    ensures |Padded(n)| == |Padded(m)| == WIDTH && (Less(Padded(n), Padded(m)) <==> n < m)
  {
    RevisionsFit();
    FewDigits(n, WIDTH);
    FewDigits(m, WIDTH);
    if n < m {
      DigitsOrder(n, m, WIDTH);
    } else {
      if m < n {
        DigitsOrder(m, n, WIDTH);
      }
      if Less(Padded(n), Padded(m)) {
        LessIsTransitive(Padded(n), Padded(m), Padded(n));
      }
      LessIsIrreflexive(Padded(n));
    }
  }

  /* ---------- pruning ---------- */

  const KEPT := 10

  /** The output of sort -r. */
  ghost predicate Descending(names: seq<string>) {
    forall i, j | 0 <= i < j < |names| :: Less(names[j], names[i])
  }

  /** The loop of prune_backups over the sorted names. */
  method PruneBackups(names: seq<string>) returns (kept: seq<string>, removed: seq<string>)
    ensures names == kept + removed
    ensures |kept| == if |names| < KEPT then |names| else KEPT
  {
    kept, removed := [], [];
    var count := 0;
    for i := 0 to |names|
      invariant count == i && kept + removed == names[..i]
      invariant |kept| == (if i < KEPT then i else KEPT)
    {
      count := count + 1;
      if count > KEPT {
        removed := removed + [names[i]];
      } else {
        kept := kept + [names[i]];
      }
    }
  }

  /** The name of a backup: its padded revision, and then its time and a random suffix. */
  function BackupName(revision: nat, suffix: string): string {
    "revision-" + Padded(revision) + suffix
  }

  /** Every kept name is greater than every removed one, so the kept ones are the ten greatest; and no removed
      backup is of a higher revision than a kept one. */
  lemma PruningKeepsTheHighest(names: seq<string>, kept: seq<string>, removed: seq<string>, i: nat, j: nat,
                               revisionOf: string -> nat, suffixOf: string -> string)
    requires Descending(names) && names == kept + removed && i < |kept| && j < |removed|
    requires forall n | n in names :: n == BackupName(revisionOf(n), suffixOf(n)) && revisionOf(n) <= MAX_REVISION
    ensures Less(removed[j], kept[i])
    ensures revisionOf(removed[j]) <= revisionOf(kept[i])
  {
    assert kept[i] == names[i] && removed[j] == names[|kept| + j];
    var k, r := kept[i], removed[j];
    assert k in names && r in names;
    if revisionOf(k) < revisionOf(r) {
      PaddedOrder(revisionOf(k), revisionOf(r));
      LessExtends("revision-", Padded(revisionOf(k)), Padded(revisionOf(r)), suffixOf(k), suffixOf(r));
      LessIsTransitive(k, r, k);
      LessIsIrreflexive(k);
      assert false;
    }
  }
}
