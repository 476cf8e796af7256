/**
 * Deduplication against the folder the lyric sheets are saved to
 * (`scanExistingFiles` and `songAlreadyExists` in content.js).
 *
 * The folder picker and the directory iterator are browser facilities: the
 * model takes their outcome as a `Picker` value. A JavaScript `Set` iterates
 * in insertion order and ignores repeated insertions, so the key set is a
 * sequence without duplicates.
 */
module FolderScan {
  import opened Wrappers
  import opened Text

  datatype Kind = File | Directory

  /** One `[name, handle]` pair of a directory listing. */
  datatype Entry = Entry(name: string, kind: Kind)

  /** Why the folder picker failed: the user dismissed it, or anything else. */
  datatype PickerError = AbortError | OtherError(message: string)

  /** What `showDirectoryPicker` gave: the folder's listing, or a rejection. */
  datatype Picker = Granted(entries: seq<Entry>) | Refused(error: PickerError)

  /** What `scanExistingFiles` yields: the key set, `null` (cancelled), or a thrown error. */
  datatype Scan = Keys(keys: seq<string>) | Cancelled | Thrown(message: string)

  predicate NoDuplicates(s: seq<string>) {
    forall i, j :: 0 <= i < j < |s| ==> s[i] != s[j]
  }

  /** The key one listing entry contributes: a file whose lower-cased name ends
      in ".txt" gives that lower-cased name without the extension. */
  function KeyOf(e: Entry): (k: Option<string>)
    ensures k.Some? <==> e.kind == File && EndsWith(Lower(e.name), ".txt")
    ensures k.Some? ==> k.value + ".txt" == Lower(e.name)
  {
    var lower := Lower(e.name);
    if e.kind == File && EndsWith(lower, ".txt") then
      assert lower == lower[..|lower| - 4] + lower[|lower| - 4..];
      Some(lower[..|lower| - 4])
    else None
  }

  /** The key set after inserting the keys of `entries` in listing order:
      at most one key per entry, each held once. */
  function KeysOf(entries: seq<Entry>): (keys: seq<string>)
    ensures |keys| <= |entries|
    ensures NoDuplicates(keys)
  {
    if entries == [] then []
    else
      var keys := KeysOf(entries[..|entries| - 1]);
      var k := KeyOf(entries[|entries| - 1]);
      if k.Some? && k.value !in keys then keys + [k.value] else keys
  }

  /** Some entry of `entries` gives the key `k`. */
  predicate GivesKey(entries: seq<Entry>, k: string) {
    exists i :: 0 <= i < |entries| && KeyOf(entries[i]) == Some(k)
  }

  /** An entry gives `k` when one before the last does, or the last one does. */
  lemma GivesKeyStep(entries: seq<Entry>, k: string)
    requires entries != []
    ensures GivesKey(entries, k) <==>
      GivesKey(entries[..|entries| - 1], k) || KeyOf(entries[|entries| - 1]) == Some(k)
  {
    var init := entries[..|entries| - 1];
    if GivesKey(init, k) {
      var i :| 0 <= i < |init| && KeyOf(init[i]) == Some(k);
      assert entries[i] == init[i];
    }
    if GivesKey(entries, k) {
      var i :| 0 <= i < |entries| && KeyOf(entries[i]) == Some(k);
      if i < |init| {
        assert init[i] == entries[i];
      }
    }
  }

  /** The key set holds exactly the keys some entry gives. */
  lemma {:induction false} KeysOfExactly(entries: seq<Entry>)
    ensures forall k :: k in KeysOf(entries) <==> GivesKey(entries, k)
  {
    if entries != [] {
      KeysOfExactly(entries[..|entries| - 1]);
      forall k ensures k in KeysOf(entries) <==> GivesKey(entries, k) {
        GivesKeyStep(entries, k);
      }
    }
  }

  /** The model of `scanExistingFiles`. */
  method ScanExistingFiles(picker: Picker) returns (r: Scan)
    ensures r == Cancelled <==> picker == Refused(AbortError)
    ensures r.Thrown? <==> picker.Refused? && picker.error.OtherError?
    ensures r.Thrown? ==> r.message == picker.error.message
    ensures r.Keys? ==> picker.Granted? && r.keys == KeysOf(picker.entries)
  {
    match picker
    case Refused(e) =>
      if e == AbortError {
        return Cancelled;
      }
      return Thrown(e.message);
    case Granted(entries) =>
      var keys: seq<string> := [];
      var i := 0;
      while i < |entries|
        invariant 0 <= i <= |entries|
        invariant keys == KeysOf(entries[..i])
      {
        assert entries[..i + 1][..i] == entries[..i];
        var k := KeyOf(entries[i]);
        if k.Some? && k.value !in keys {
          keys := keys + [k.value];
        }
        i := i + 1;
      }
      assert entries[..i] == entries;
      return Keys(keys);
  }

  /** The form of a title that is compared with the keys,
      `title.toLowerCase().trim()`; the order of the two steps does not matter. */
  function Normalize(title: string): (t: string)
    ensures t == Lower(Trim(title))
    ensures t == [] || (!IsSpace(t[0]) && !IsSpace(t[|t| - 1]))
  {
    TrimLowerCommute(title);
    Trim(Lower(title))
  }

  /** Whether some file name equals `t` or starts with it, scanning in order
      and stopping at the first hit. */
  function AnyStartsWith(files: seq<string>, t: string): (r: bool)
    ensures r <==> exists i :: 0 <= i < |files| && StartsWith(files[i], t)
  {
    if files == [] then false
    else if files[0] == t || StartsWith(files[0], t) then true
    else
      assert forall i :: 1 <= i < |files| ==> files[i] == files[1..][i - 1];
      AnyStartsWith(files[1..], t)
  }

  /** The model of `songAlreadyExists`: a prefix match of the normalised title
      against the keys, exact equality being the case of an equal length. */
  function SongAlreadyExists(title: string, existing: seq<string>): (r: bool)
    ensures r <==> exists i :: 0 <= i < |existing| && StartsWith(existing[i], Normalize(title))
  {
    AnyStartsWith(existing, Normalize(title))
  }

  /** A key equal to the normalised title is a match. */
  lemma ExactKeyMatches(title: string, existing: seq<string>)
    requires Normalize(title) in existing
    ensures SongAlreadyExists(title, existing)
  {
    MemberStartsWith(existing, Normalize(title));
  }

  lemma MemberStartsWith(files: seq<string>, t: string)
    requires t in files
    ensures AnyStartsWith(files, t)
  {
    var i :| 0 <= i < |files| && files[i] == t;
    assert StartsWith(files[i], t);
  }

  /** A title that normalises to nothing matches every non-empty folder and no empty one. */
  lemma BlankTitleMatchesAnyKey(title: string, existing: seq<string>)
    requires Normalize(title) == ""
    ensures SongAlreadyExists(title, existing) <==> existing != []
  {
    if existing != [] {
      assert StartsWith(existing[0], "");
    }
  }

  /** The answer depends on which keys the set holds, not on the order they
      were inserted in. */
  lemma OnlyMembershipMatters(title: string, existing: seq<string>)
    ensures SongAlreadyExists(title, existing) <==>
      exists k :: k in existing && StartsWith(k, Normalize(title))
  {
    if exists k :: k in existing && StartsWith(k, Normalize(title)) {
      var k :| k in existing && StartsWith(k, Normalize(title));
      var i :| 0 <= i < |existing| && existing[i] == k;
    }
  }

  /** The case the prefix rule exists for: a sheet saved as the title plus a
      marker such as "-lyrics", plus ".txt" in any case, yields a key that the
      title is recognised by. */
  lemma SuffixedFileIsRecognised(title: string, suffix: string, name: string)
    requires Lower(name) == Normalize(title) + suffix + ".txt"
    ensures KeyOf(Entry(name, File)) == Some(Normalize(title) + suffix)
    ensures SongAlreadyExists(title, [Normalize(title) + suffix])
  {
    var lower, key := Lower(name), Normalize(title) + suffix;
    assert lower[|lower| - 4..] == ".txt";
    assert lower[..|lower| - 4] == key;
    assert StartsWith([key][0], Normalize(title));
  }
}
