/** Choosing the data file to load (`find_latest_file` in `src/utils.py` and main.py) and
    the user directory to read (`list_user_directories`). The directory listing and the
    file-name pattern's match are given: the model works on the names. */
module LatestFile {
  import opened Wrappers
  import opened Text
  import opened JsValues

  // ----- the timestamp in a file name -----

  /** Text matching `\d{4}-\d{2}-\d{2}T\d{2}-\d{2}-\d{2}`. */
  predicate IsStamp(s: string) {
    |s| == 19
    && (forall i :: 0 <= i < 19 && i != 4 && i != 7 && i != 10 && i != 13 && i != 16 ==> IsDigit(s[i]))
    && s[4] == '-' && s[7] == '-' && s[10] == 'T' && s[13] == '-' && s[16] == '-'
  }

  /** The leftmost timestamp at or after position `from`, or "" when there is none. */
  function StampFrom(name: string, from: nat): (key: string)
    requires from <= |name|
    decreases |name| - from
  {
    if from + 19 > |name| then ""
    else if IsStamp(name[from..from + 19]) then name[from..from + 19]
    else StampFrom(name, from + 1)
  }

  /** The sort key: `re.search(...).group(1)` when the name holds a timestamp, else "". */
  function TimestampKey(name: string): string {
    StampFrom(name, 0)
  }

  /** A timestamp starts at position i of the name. */
  predicate StampAt(name: string, i: nat) {
    i + 19 <= |name| && IsStamp(name[i..i + 19])
  }

  /** The key is empty or a timestamp standing in the name. */
  lemma {:induction false} StampFromIsStamp(name: string, from: nat)
    requires from <= |name|
    ensures StampFrom(name, from) == "" ||
      exists i: nat :: from <= i && StampAt(name, i) && StampFrom(name, from) == name[i..i + 19]
    decreases |name| - from
  {
    if from + 19 <= |name| {
      if IsStamp(name[from..from + 19]) {
        assert StampAt(name, from);
      } else {
        StampFromIsStamp(name, from + 1);
      }
    }
  }

  /** No timestamp starts before `from` in a name whose first `from` characters hold no
      digit. */
  lemma {:induction false} SkipToStamp(name: string, from: nat, at: nat)
    requires from <= at <= |name|
    requires forall i :: from <= i < at ==> !IsDigit(name[i])
    ensures StampFrom(name, from) == StampFrom(name, at)
    decreases at - from
  {
    if from < at {
      if from + 19 <= |name| {
        assert name[from..from + 19][0] == name[from];
      }
      SkipToStamp(name, from + 1, at);
    }
  }

  /** The round trip: a timestamp written after text without digits is the key read. */
  lemma KeyFindsStamp(prefix: string, stamp: string, rest: string)
    requires NoDigits(prefix) && IsStamp(stamp)
    ensures TimestampKey(prefix + stamp + rest) == stamp
  {
    var name := prefix + stamp + rest;
    forall i | 0 <= i < |prefix|
      ensures !IsDigit(name[i])
    {
      assert name[i] == prefix[i];
    }
    SkipToStamp(name, 0, |prefix|);
    assert name[|prefix|..|prefix| + 19] == stamp;
  }

  /** A name without any digit has the empty key. */
  lemma {:induction false} NoStampWithoutDigits(name: string, from: nat)
    requires from <= |name| && NoDigits(name)
    ensures StampFrom(name, from) == ""
    decreases |name| - from
  {
    if from + 19 <= |name| {
      assert name[from..from + 19][0] == name[from];
      NoStampWithoutDigits(name, from + 1);
    }
  }

  // ----- choosing among the matching names -----

  /** `[f for f in listing if re.match(pattern, f)]`, with the pattern's verdict given as
      `matches`. */
  function Matching(listing: seq<string>, matches: string -> bool): seq<string> {
    if |listing| == 0 then []
    else
      var last := listing[|listing| - 1];
      Matching(listing[..|listing| - 1], matches) + (if matches(last) then [last] else [])
  }

  /** The matching names are exactly the listed names the pattern matches. */
  lemma {:induction false} MatchingMembers(listing: seq<string>, matches: string -> bool)
    ensures forall f :: f in Matching(listing, matches) <==> f in listing && matches(f)
  {
    if |listing| > 0 {
      MatchingMembers(listing[..|listing| - 1], matches);
      assert listing == listing[..|listing| - 1] + [listing[|listing| - 1]];
    }
  }

  /** `sorted(names, key=TimestampKey, reverse=True)[0]`: the position of the first name
      whose key is greatest. The sort is stable, so of names with equal keys the earliest
      comes first. */
  function Latest(names: seq<string>): (k: nat)
    requires |names| > 0
    ensures k < |names|
  {
    if |names| == 1 then 0
    else
      var k := Latest(names[..|names| - 1]);
      if LexLess(TimestampKey(names[k]), TimestampKey(names[|names| - 1])) then |names| - 1 else k
  }

  /** No name has a greater key than the chosen one, and every earlier name has a
      strictly smaller key. */
  lemma {:induction false} LatestIsFirstMaximum(names: seq<string>)
    requires |names| > 0
    ensures forall j :: 0 <= j < |names| ==> !LexLess(TimestampKey(names[Latest(names)]), TimestampKey(names[j]))
    ensures forall j :: 0 <= j < Latest(names) ==> LexLess(TimestampKey(names[j]), TimestampKey(names[Latest(names)]))
  {
    if |names| > 1 {
      var init := names[..|names| - 1];
      var k := Latest(init);
      LatestIsFirstMaximum(init);
      var last := |names| - 1;
      var best := TimestampKey(names[k]);
      var lastKey := TimestampKey(names[last]);
      assert Latest(names) == if LexLess(best, lastKey) then last else k;
      if LexLess(best, lastKey) {
        forall j | 0 <= j < |names|
          ensures !LexLess(lastKey, TimestampKey(names[j]))
        {
          if j < last {
            assert names[j] == init[j];
            if LexLess(lastKey, TimestampKey(names[j])) {
              LexLessTransitive(best, lastKey, TimestampKey(names[j]));
            }
          } else {
            LexLessIrreflexive(lastKey);
          }
        }
        forall j | 0 <= j < last
          ensures LexLess(TimestampKey(names[j]), lastKey)
        {
          assert names[j] == init[j];
          if TimestampKey(names[j]) != best {
            LexLessTotal(TimestampKey(names[j]), best);
            LexLessTransitive(TimestampKey(names[j]), best, lastKey);
          }
        }
      } else {
        forall j | 0 <= j < |names|
          ensures !LexLess(best, TimestampKey(names[j]))
        {
          if j < last {
            assert names[j] == init[j];
          }
        }
        forall j | 0 <= j < k
          ensures LexLess(TimestampKey(names[j]), best)
        {
          assert names[j] == init[j];
        }
      }
    } else {
      LexLessIrreflexive(TimestampKey(names[0]));
    }
  }

  /** `os.path.join(directory, name)` */
  function PathJoin(directory: string, name: string): string {
    if |name| > 0 && name[0] == '/' then name
    else if |directory| == 0 || directory[|directory| - 1] == '/' then directory + name
    else directory + "/" + name
  }

  /** `find_latest_file(directory, pattern)` over the directory's listing: None without
      a matching name, otherwise the directory joined with the first matching name of
      greatest timestamp key. */
  function FindLatestFile(directory: string, listing: seq<string>, matches: string -> bool): Option<string> {
    var candidates := Matching(listing, matches);
    if |candidates| == 0 then None
    else Some(PathJoin(directory, candidates[Latest(candidates)]))
  }

  /** None exactly when no listed name matches; otherwise a matching name whose key no
      matching name exceeds, preceded only by names of smaller key. */
  lemma FindLatestFileChooses(directory: string, listing: seq<string>, matches: string -> bool)
    ensures FindLatestFile(directory, listing, matches) == None <==> forall f :: f in listing ==> !matches(f)
    ensures FindLatestFile(directory, listing, matches).Some? ==>
      var candidates := Matching(listing, matches);
      var chosen := candidates[Latest(candidates)];
      FindLatestFile(directory, listing, matches) == Some(PathJoin(directory, chosen))
      && chosen in listing && matches(chosen)
      && (forall f :: f in listing && matches(f) ==> !LexLess(TimestampKey(chosen), TimestampKey(f)))
  {
    MatchingMembers(listing, matches);
    var candidates := Matching(listing, matches);
    if |candidates| > 0 {
      assert candidates[0] in candidates;
      LatestIsFirstMaximum(candidates);
      var chosen := candidates[Latest(candidates)];
      forall f | f in listing && matches(f)
        ensures !LexLess(TimestampKey(chosen), TimestampKey(f))
      {
        var j :| 0 <= j < |candidates| && candidates[j] == f;
      }
    }
  }

  /** A name without a timestamp is chosen only when no matching name has one. */
  lemma StampedNamesWin(names: seq<string>, j: nat)
    requires j < |names| && TimestampKey(names[j]) != ""
    ensures TimestampKey(names[Latest(names)]) != ""
  {
    LatestIsFirstMaximum(names);
    EmptyIsLeast(TimestampKey(names[j]));
  }

  /** Within a directory path without a trailing slash the chosen name is joined with a
      single slash. */
  lemma JoinAddsSlash(directory: string, name: string)
    requires |directory| > 0 && directory[|directory| - 1] != '/'
    requires |name| > 0 && name[0] != '/'
    ensures PathJoin(directory, name) == directory + "/" + name
    ensures PathJoin(directory, name)[..|directory|] == directory
  {
  }

  // ----- choosing the user directory -----

  /** `user_dirs[selection - 1]` once `1 <= selection <= len(user_dirs)` holds; any other
      number is refused and asked for again. */
  function Selection(dirs: seq<string>, selection: int): (r: Option<string>)
    ensures r.Some? <==> 1 <= selection <= |dirs|
    ensures r.Some? ==> r.value == dirs[selection - 1] && r.value in dirs
  {
    if 1 <= selection <= |dirs| then Some(dirs[selection - 1]) else None
  }

  /** Every listed directory can be selected, by its position counted from 1. */
  lemma EveryDirectorySelectable(dirs: seq<string>, i: nat)
    requires i < |dirs|
    ensures Selection(dirs, i + 1) == Some(dirs[i])
  {
  }
}
