/**
 * The evidence-image retention policy (`cleanup_images` in python/main.py):
 * of the `.jpg` files in the capture directory, only the newest
 * MAX_STORED_IMAGES by modification time are kept. The directory is given
 * as its listing: names with their modification times, in listing order.
 */
module Retention {
  /** MAX_STORED_IMAGES */
  const MaxStoredImages: nat := 20
  /** CAPTURE_DIR */
  const CaptureDir: string := "captures"

  datatype FileEntry = FileEntry(name: string, mtime: real)

  /** `name.endswith(".jpg")` (case-sensitive). */
  predicate IsJpg(name: string)
  {
    |name| >= 4 && name[|name| - 4..] == ".jpg"
  }

  /** A directory never lists one name twice. */
  predicate DistinctNames(listing: seq<FileEntry>)
  {
    forall i, j :: 0 <= i < j < |listing| ==> listing[i].name != listing[j].name
  }

  /** The `.jpg` entries of a listing, in listing order. */
  function JpgFiles(listing: seq<FileEntry>): (r: seq<FileEntry>)
    ensures forall f :: f in r <==> f in listing && IsJpg(f.name)
    ensures |r| <= |listing|
    decreases |listing|
  {
    if listing == [] then []
    else if IsJpg(listing[0].name) then [listing[0]] + JpgFiles(listing[1..])
    else JpgFiles(listing[1..])
  }

  /** The entries cleanup never looks at, in listing order. */
  function OtherFiles(listing: seq<FileEntry>): (r: seq<FileEntry>)
    ensures forall f :: f in r <==> f in listing && !IsJpg(f.name)
    decreases |listing|
  {
    if listing == [] then []
    else if IsJpg(listing[0].name) then OtherFiles(listing[1..])
    else [listing[0]] + OtherFiles(listing[1..])
  }

  predicate SortedByMtime(s: seq<FileEntry>)
  {
    forall i, j :: 0 <= i < j < |s| ==> s[i].mtime <= s[j].mtime
  }

  /** The tail of a sorted list is sorted and no entry in it is older than the head. */
  lemma SortedTail(s: seq<FileEntry>)
    requires SortedByMtime(s) && s != []
    ensures SortedByMtime(s[1..])
    ensures forall g :: g in multiset(s[1..]) ==> s[0].mtime <= g.mtime
  {
  }

  /** An entry no newer than anything in a sorted list can go in front of it. */
  lemma PrependKeepsSorted(x: FileEntry, s: seq<FileEntry>)
    requires SortedByMtime(s)
    requires forall g :: g in multiset(s) ==> x.mtime <= g.mtime
    ensures SortedByMtime([x] + s)
  {
  }

  /** Insert `f` before the first entry that is not older, which keeps equal mtimes in input order. */
  function InsertByMtime(f: FileEntry, s: seq<FileEntry>): (r: seq<FileEntry>)
    requires SortedByMtime(s)
    ensures SortedByMtime(r)
    ensures multiset(r) == multiset(s) + multiset{f}
    decreases |s|
  {
    if s == [] || f.mtime <= s[0].mtime then
      PrependKeepsSorted(f, s);
      [f] + s
    else
      SortedTail(s);
      var rest := InsertByMtime(f, s[1..]);
      assert s == [s[0]] + s[1..];
      PrependKeepsSorted(s[0], rest);
      [s[0]] + rest
  }

  /** `sorted(files, key=os.path.getmtime)`: a stable sort by modification time. */
  function SortByMtime(s: seq<FileEntry>): (r: seq<FileEntry>)
    ensures SortedByMtime(r)
    ensures multiset(r) == multiset(s)
    decreases |s|
  {
    if s == [] then []
    else
      assert s == [s[0]] + s[1..];
      InsertByMtime(s[0], SortByMtime(s[1..]))
  }

  /** The list cleanup_images works on: the `.jpg` files, oldest first. */
  function Candidates(listing: seq<FileEntry>): seq<FileEntry>
  {
    SortByMtime(JpgFiles(listing))
  }

  /**
   * How many files the `while` loop pops: all but the newest
   * MAX_STORED_IMAGES. This function defines the pop count; its second
   * ensures gives it in terms of the `.jpg` files rather than the sorted list.
   */
  function EvictionCount(listing: seq<FileEntry>): (k: nat)
    ensures k <= |Candidates(listing)| && |Candidates(listing)| == |JpgFiles(listing)|
    ensures k == if |JpgFiles(listing)| > MaxStoredImages then |JpgFiles(listing)| - MaxStoredImages else 0
  {
    var files := Candidates(listing);
    assert |files| == |JpgFiles(listing)| by {
      assert |multiset(files)| == |multiset(JpgFiles(listing))|;
    }
    if |files| > MaxStoredImages then |files| - MaxStoredImages else 0
  }

  /** The files cleanup_images removes, oldest first. */
  function Evicted(listing: seq<FileEntry>): (r: seq<FileEntry>)
    ensures forall f :: f in r ==> f in listing && IsJpg(f.name)
  {
    var files := Candidates(listing);
    var r := files[..EvictionCount(listing)];
    assert forall f :: f in r ==> f in files;
    assert forall f :: f in files ==> f in multiset(files);
    r
  }

  /** The `.jpg` files left once the loop ends. */
  function Kept(listing: seq<FileEntry>): seq<FileEntry>
  {
    Candidates(listing)[EvictionCount(listing)..]
  }

  /**
   * What cleanup_images promises: the evicted files and the kept ones are
   * together exactly the `.jpg` files; at most MAX_STORED_IMAGES are kept;
   * and with no more than MAX_STORED_IMAGES `.jpg` files nothing is evicted.
   */
  lemma EvictsAllButNewest(listing: seq<FileEntry>)
    ensures multiset(Evicted(listing) + Kept(listing)) == multiset(JpgFiles(listing))
    ensures |Kept(listing)| == if |JpgFiles(listing)| > MaxStoredImages then MaxStoredImages else |JpgFiles(listing)|
    ensures |JpgFiles(listing)| <= MaxStoredImages ==> Evicted(listing) == []
  {
    var files, k := Candidates(listing), EvictionCount(listing);
    assert Evicted(listing) + Kept(listing) == files[..k] + files[k..] == files;
  }

  /** Every file cleanup_images removes is at least as old as every file it keeps. */
  lemma EvictsOldest(listing: seq<FileEntry>)
    ensures forall i, j :: 0 <= i < |Evicted(listing)| && 0 <= j < |Kept(listing)| ==>
              Evicted(listing)[i].mtime <= Kept(listing)[j].mtime
  {
  }

  /** `os.remove` of one name. */
  function RemoveNamed(listing: seq<FileEntry>, name: string): (r: seq<FileEntry>)
    ensures forall f :: f in r <==> f in listing && f.name != name
    decreases |listing|
  {
    if listing == [] then []
    else if listing[0].name == name then RemoveNamed(listing[1..], name)
    else [listing[0]] + RemoveNamed(listing[1..], name)
  }

  /** The directory after removing `gone`'s names one after the other, first to last. */
  function RemoveAll(listing: seq<FileEntry>, gone: seq<FileEntry>): seq<FileEntry>
    decreases |gone|
  {
    if gone == [] then listing
    else RemoveNamed(RemoveAll(listing, gone[..|gone| - 1]), gone[|gone| - 1].name)
  }

  /** The capture directory after cleanup_images. */
  function Cleaned(listing: seq<FileEntry>): seq<FileEntry>
  {
    RemoveAll(listing, Evicted(listing))
  }

  lemma {:induction false} RemoveNamedKeepsDistinct(listing: seq<FileEntry>, name: string)
    requires DistinctNames(listing)
    ensures DistinctNames(RemoveNamed(listing, name))
    decreases |listing|
  {
    if listing != [] {
      RemoveNamedKeepsDistinct(listing[1..], name);
      var rest := RemoveNamed(listing[1..], name);
      assert forall f :: f in rest ==> f in listing[1..];
    }
  }

  lemma {:induction false} RemoveAbsentName(listing: seq<FileEntry>, name: string)
    requires forall f :: f in listing ==> f.name != name
    ensures RemoveNamed(listing, name) == listing
    decreases |listing|
  {
    if listing != [] {
      assert listing[0] in listing;
      RemoveAbsentName(listing[1..], name);
      assert listing == [listing[0]] + listing[1..];
    }
  }

  /** Removing a `.jpg` name leaves every other file alone. */
  lemma {:induction false} RemoveJpgKeepsOthers(listing: seq<FileEntry>, name: string)
    requires IsJpg(name)
    ensures OtherFiles(RemoveNamed(listing, name)) == OtherFiles(listing)
    decreases |listing|
  {
    if listing != [] {
      RemoveJpgKeepsOthers(listing[1..], name);
      if listing[0].name != name {
        assert ([listing[0]] + RemoveNamed(listing[1..], name))[1..] == RemoveNamed(listing[1..], name);
      }
    }
  }

  lemma {:induction false} AppendJpgKeepsOthers(listing: seq<FileEntry>, f: FileEntry)
    requires IsJpg(f.name)
    ensures OtherFiles(listing + [f]) == OtherFiles(listing)
    decreases |listing|
  {
    if listing != [] {
      assert (listing + [f])[1..] == listing[1..] + [f];
      AppendJpgKeepsOthers(listing[1..], f);
    } else {
      assert [f][1..] == [];
    }
  }

  /** Removing the name of one listed `.jpg` file takes exactly that file out of the `.jpg` files. */
  lemma {:induction false} RemoveOneJpg(listing: seq<FileEntry>, f: FileEntry)
    requires DistinctNames(listing)
    requires f in listing && IsJpg(f.name)
    ensures multiset(JpgFiles(RemoveNamed(listing, f.name))) == multiset(JpgFiles(listing)) - multiset{f}
    decreases |listing|
  {
    var tail := listing[1..];
    if listing[0] == f {
      assert forall g :: g in tail ==> g.name != f.name by {
        forall g | g in tail ensures g.name != f.name {
          var j :| 0 <= j < |tail| && tail[j] == g;
          assert listing[j + 1] == g;
        }
      }
      RemoveAbsentName(tail, f.name);
    } else {
      assert f in tail;
      assert listing[0].name != f.name by {
        var j :| 0 <= j < |tail| && tail[j] == f;
        assert listing[j + 1] == f;
      }
      assert DistinctNames(tail) by {
        forall i, j | 0 <= i < j < |tail| ensures tail[i].name != tail[j].name {
          assert tail[i] == listing[i + 1] && tail[j] == listing[j + 1];
        }
      }
      RemoveOneJpg(tail, f);
      var rest := RemoveNamed(tail, f.name);
      assert ([listing[0]] + rest)[1..] == rest;
    }
  }

  /**
   * Removing, one at a time, the names of files that are among the `.jpg`
   * files takes exactly those files out of the `.jpg` files and leaves
   * every other file alone.
   */
  lemma {:induction false} RemoveAllJpg(listing: seq<FileEntry>, gone: seq<FileEntry>)
    requires DistinctNames(listing)
    requires multiset(gone) <= multiset(JpgFiles(listing))
    ensures DistinctNames(RemoveAll(listing, gone))
    ensures multiset(JpgFiles(RemoveAll(listing, gone))) == multiset(JpgFiles(listing)) - multiset(gone)
    ensures OtherFiles(RemoveAll(listing, gone)) == OtherFiles(listing)
    decreases |gone|
  {
    if gone != [] {
      var init, last := gone[..|gone| - 1], gone[|gone| - 1];
      assert gone == init + [last];
      RemoveAllJpg(listing, init);
      var before := RemoveAll(listing, init);
      assert last in multiset(JpgFiles(before));
      assert last in JpgFiles(before);
      RemoveOneJpg(before, last);
      RemoveNamedKeepsDistinct(before, last.name);
      RemoveJpgKeepsOthers(before, last.name);
    }
  }

  /**
   * The directory after cleanup_images: its `.jpg` files are exactly the
   * kept (newest) ones, so there are at most MAX_STORED_IMAGES of them, and
   * every other file is still there.
   */
  lemma CleanupKeepsNewest(listing: seq<FileEntry>)
    requires DistinctNames(listing)
    ensures DistinctNames(Cleaned(listing))
    ensures multiset(JpgFiles(Cleaned(listing))) == multiset(Kept(listing))
    ensures |JpgFiles(Cleaned(listing))| <= MaxStoredImages
    ensures OtherFiles(Cleaned(listing)) == OtherFiles(listing)
    ensures |JpgFiles(listing)| <= MaxStoredImages ==> Cleaned(listing) == listing
  {
    EvictsAllButNewest(listing);
    var e, k := Evicted(listing), Kept(listing);
    assert multiset(e + k) == multiset(e) + multiset(k);
    RemoveAllJpg(listing, e);
    assert |multiset(JpgFiles(Cleaned(listing)))| == |multiset(k)|;
  }

  /** `int(x)` on a float: truncation toward zero. */
  function TruncateToInt(x: real): (i: int)
    ensures x >= 0.0 ==> i as real <= x < i as real + 1.0
    ensures x < 0.0 ==> i as real - 1.0 < x <= i as real
  {
    if x >= 0.0 then x.Floor else -((-x).Floor)
  }

  /** The number a string of decimal digits denotes. */
  function DecimalValue(s: string): int
    decreases |s|
  {
    if s == [] then 0 else 10 * DecimalValue(s[..|s| - 1]) + (s[|s| - 1] as int - '0' as int)
  }

  function DecimalDigits(n: nat): (s: string)
    ensures |s| > 0
    ensures forall i :: 0 <= i < |s| ==> '0' <= s[i] <= '9'
    ensures DecimalValue(s) == n
  {
    var last := ('0' as int + n % 10) as char;
    if n < 10 then
      assert [last][..0] == [];
      [last]
    else
      var prefix := DecimalDigits(n / 10);
      assert (prefix + [last])[..|prefix|] == prefix;
      prefix + [last]
  }

  /** `str(i)` for an integer: an optional minus sign, then the digits of its magnitude. */
  function IntToString(i: int): (s: string)
    ensures i < 0 ==> |s| > 1 && s[0] == '-' && DecimalValue(s[1..]) == -i
    ensures i >= 0 ==> DecimalValue(s) == i && forall k :: 0 <= k < |s| ==> '0' <= s[k] <= '9'
  {
    if i < 0 then
      var digits := DecimalDigits(-i);
      assert ("-" + digits)[1..] == digits;
      "-" + digits
    else DecimalDigits(i)
  }

  /** The evidence file name `<category>_<int(now)>.jpg`; it always takes part in retention. */
  function ImageName(category: string, now: real): (name: string)
    ensures IsJpg(name)
    ensures |category| + 1 < |name| - 4 && name[..|category| + 1] == category + "_"
    ensures name[|category| + 1..|name| - 4] == IntToString(TruncateToInt(now))
  {
    var number := IntToString(TruncateToInt(now));
    var stem := category + "_" + number;
    var name := stem + ".jpg";
    assert name[|stem|..] == ".jpg";
    assert name[..|category| + 1] == stem[..|category| + 1];
    assert name[|category| + 1..|name| - 4] == number;
    name
  }

  /** `cv2.imwrite`: the file `name` now exists with modification time `now`, replacing any older file of that name. */
  function WriteImage(listing: seq<FileEntry>, name: string, now: real): (r: seq<FileEntry>)
    requires DistinctNames(listing)
    ensures DistinctNames(r)
    ensures forall f :: f in r <==> (f in listing && f.name != name) || f == FileEntry(name, now)
    ensures IsJpg(name) ==> OtherFiles(r) == OtherFiles(listing)
  {
    RemoveNamedKeepsDistinct(listing, name);
    var rest := RemoveNamed(listing, name);
    var r := rest + [FileEntry(name, now)];
    forall i, j | 0 <= i < j < |r| ensures r[i].name != r[j].name {
      assert r[i] == rest[i] && rest[i] in rest;
    }
    if IsJpg(name) then
      RemoveJpgKeepsOthers(listing, name);
      AppendJpgKeepsOthers(rest, FileEntry(name, now));
      r
    else r
  }
}
