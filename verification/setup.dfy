/**
 * The requirement-line filter of setup.py (`get_requirements`). Opening and
 * reading `requirements.txt` is I/O: its outcome is an input here.
 */
module Setup {
  import opened Results

  /**
   * Python's `str.isspace` for a single character, by code point: the ASCII
   * blanks and control separators count, no printable ASCII character does.
   */
  predicate IsSpace(c: char): (b: bool)
    ensures c == ' ' || c == '\t' || c == '\n' || c == '\r' || c == '\U{B}' || c == '\U{C}' ==> b
    ensures '!' <= c <= '~' ==> !b
  {
    var n := c as int;
    || (0x09 <= n <= 0x0D) || (0x1C <= n <= 0x20) || n == 0x85 || n == 0xA0
    || n == 0x1680 || (0x2000 <= n <= 0x200A) || n == 0x2028 || n == 0x2029
    || n == 0x202F || n == 0x205F || n == 0x3000
  }

  /** The number of leading whitespace characters. */
  function Lead(s: string): (n: nat)
    ensures n <= |s|
    ensures forall k :: 0 <= k < n ==> IsSpace(s[k])
    ensures n < |s| ==> !IsSpace(s[n])
  {
    if s == [] || !IsSpace(s[0]) then 0 else 1 + Lead(s[1..])
  }

  /** The number of trailing whitespace characters. */
  function Trail(s: string): (n: nat)
    ensures n <= |s|
    ensures forall k :: |s| - n <= k < |s| ==> IsSpace(s[k])
    ensures n < |s| ==> !IsSpace(s[|s| - n - 1])
  {
    if s == [] || !IsSpace(s[|s| - 1]) then 0 else 1 + Trail(s[..|s| - 1])
  }

  /**
   * `str.strip()` with no argument: the leading whitespace is skipped, then the
   * end moves left over whitespace but never past the start.
   */
  function Strip(s: string): (r: string)
    ensures |r| <= |s|
    ensures r != [] ==> !IsSpace(r[0]) && !IsSpace(r[|r| - 1])
  {
    var i := Lead(s);
    if i == |s| then []
    else
      var j := |s| - Trail(s);
      assert i < j;
      s[i..j]
  }

  /**
   * What strip removes is whitespace: Strip(s) is the infix of s that starts
   * after the leading whitespace, and everything after it is whitespace too.
   */
  lemma StripIsTrimmedInfix(s: string)
    ensures Lead(s) + |Strip(s)| <= |s|
    ensures Strip(s) == s[Lead(s)..Lead(s) + |Strip(s)|]
    ensures forall k :: 0 <= k < Lead(s) ==> IsSpace(s[k])
    ensures forall k :: Lead(s) + |Strip(s)| <= k < |s| ==> IsSpace(s[k])
  {
  }

  /**
   * Strip is the only infix with whitespace outside it and non-whitespace at
   * both of its ends: any such infix s[i..j] is Strip(s).
   */
  lemma StripUnique(s: string, i: nat, j: nat)
    requires i <= j <= |s|
    requires forall k :: 0 <= k < i ==> IsSpace(s[k])
    requires forall k :: j <= k < |s| ==> IsSpace(s[k])
    requires i < j ==> !IsSpace(s[i]) && !IsSpace(s[j - 1])
    ensures Strip(s) == s[i..j]
  {
    var n := Lead(s);
    if i == j {
      assert n == |s|;
    } else {
      assert n == i;
      var t := Trail(s);
      assert |s| - t == j;
    }
  }

  /** Stripping twice is stripping once. */
  lemma StripIdempotent(s: string)
    ensures Strip(Strip(s)) == Strip(s)
  {
    var t := Strip(s);
    StripUnique(t, 0, |t|);
  }

  /** The loop's filter: a stripped line is kept unless it is empty or the editable-install marker. */
  predicate Keep(requirement: string) {
    requirement != "" && requirement != "-e ."
  }

  /** The requirement list for the lines read, in file order; never longer than the file. */
  function Requirements(lines: seq<string>): (reqs: seq<string>)
    ensures |reqs| <= |lines|
  {
    if lines == [] then []
    else
      var requirement := Strip(lines[|lines| - 1]);
      Requirements(lines[..|lines| - 1]) + (if Keep(requirement) then [requirement] else [])
  }

  /** The positions, in increasing order, of the lines whose stripped form is kept. */
  function KeptIndices(lines: seq<string>): seq<nat>
  {
    if lines == [] then []
    else
      var last := |lines| - 1;
      KeptIndices(lines[..last]) + (if Keep(Strip(lines[last])) then [last] else [])
  }

  /**
   * The k-th requirement is the stripped line at the k-th kept position, and
   * the kept positions are line positions in increasing order.
   */
  lemma {:induction false} RequirementsFollowKeptIndices(lines: seq<string>)
    ensures |KeptIndices(lines)| == |Requirements(lines)|
    ensures forall k :: 0 <= k < |KeptIndices(lines)| ==>
      KeptIndices(lines)[k] < |lines| && Requirements(lines)[k] == Strip(lines[KeptIndices(lines)[k]])
    ensures forall k, m :: 0 <= k < m < |KeptIndices(lines)| ==> KeptIndices(lines)[k] < KeptIndices(lines)[m]
  {
    if lines != [] {
      var last := |lines| - 1;
      var init := lines[..last];
      RequirementsFollowKeptIndices(init);
      var kept, reqs := KeptIndices(lines), Requirements(lines);
      var keptInit, reqsInit := KeptIndices(init), Requirements(init);
      if Keep(Strip(lines[last])) {
        assert kept == keptInit + [last];
        assert reqs == reqsInit + [Strip(lines[last])];
      } else {
        assert kept == keptInit && reqs == reqsInit;
      }
      forall k | 0 <= k < |kept|
        ensures kept[k] < |lines| && reqs[k] == Strip(lines[kept[k]])
      {
        if k < |keptInit| {
          assert kept[k] == keptInit[k] && reqs[k] == reqsInit[k];
          assert lines[keptInit[k]] == init[keptInit[k]];
        }
      }
    }
  }

  /**
   * Completeness and soundness of the filter: a line's position is kept
   * exactly when its stripped form is non-empty and not "-e .".
   */
  lemma {:induction false} KeptIndicesComplete(lines: seq<string>, i: nat)
    requires i < |lines|
    ensures Keep(Strip(lines[i])) <==> i in KeptIndices(lines)
  {
    var last := |lines| - 1;
    var init := lines[..last];
    var keptLast := Keep(Strip(lines[last]));
    var tail: seq<nat> := if keptLast then [last] else [];
    var kept := KeptIndices(init);
    assert KeptIndices(lines) == kept + tail;
    if i < last {
      KeptIndicesComplete(init, i);
      assert lines[i] == init[i];
      assert i !in tail;
      assert (i in kept + tail) <==> (i in kept);
    } else {
      KeptIndicesBelow(init);
      assert i !in kept;
      assert (i in kept + tail) <==> keptLast;
    }
  }

  /** Every kept position is a position of the input. */
  lemma {:induction false} KeptIndicesBelow(lines: seq<string>)
    ensures forall k :: 0 <= k < |KeptIndices(lines)| ==> KeptIndices(lines)[k] < |lines|
  {
    if lines != [] {
      KeptIndicesBelow(lines[..|lines| - 1]);
    }
  }

  /** No requirement is empty or "-e .", and every one is already stripped. */
  lemma {:induction false} RequirementsAreClean(lines: seq<string>)
    ensures forall k :: 0 <= k < |Requirements(lines)| ==>
      Keep(Requirements(lines)[k]) && Strip(Requirements(lines)[k]) == Requirements(lines)[k]
  {
    if lines != [] {
      RequirementsAreClean(lines[..|lines| - 1]);
      StripIdempotent(lines[|lines| - 1]);
    }
  }

  /** Running the filter over its own output changes nothing. */
  lemma {:induction false} RequirementsIdempotent(lines: seq<string>)
    ensures Requirements(Requirements(lines)) == Requirements(lines)
  {
    if lines != [] {
      var init := lines[..|lines| - 1];
      var requirement := Strip(lines[|lines| - 1]);
      RequirementsIdempotent(init);
      StripIdempotent(lines[|lines| - 1]);
      var reqs := Requirements(lines);
      if Keep(requirement) {
        assert reqs[..|reqs| - 1] == Requirements(init);
      } else {
        assert reqs == Requirements(init);
      }
    }
  }

  /** The outcome of `open("requirements.txt")` followed by `readlines()`. */
  datatype RequirementsFile =
    | Lines(lines: seq<string>)
    | NotFound
    | Unreadable(reason: string)

  /**
   * get_requirements: strip every line and keep those that are neither empty
   * nor "-e .". A missing file gives the empty list; any other read error
   * propagates, since only FileNotFoundError is caught.
   */
  method GetRequirements(file: RequirementsFile) returns (r: Result<seq<string>, string>)
    ensures file.NotFound? ==> r == Success([])
    ensures file.Unreadable? ==> r == Failure(file.reason)
    ensures file.Lines? ==> r == Success(Requirements(file.lines))
  {
    var requirementList: seq<string> := [];
    match file
    case NotFound =>
      r := Success(requirementList);
    case Unreadable(reason) =>
      r := Failure(reason);
    case Lines(lines) =>
      for i := 0 to |lines|
        invariant requirementList == Requirements(lines[..i])
      {
        var requirement := Strip(lines[i]);
        if Keep(requirement) {
          requirementList := requirementList + [requirement];
        }
        assert lines[..i + 1][..i] == lines[..i];
      }
      assert lines[..|lines|] == lines;
      r := Success(requirementList);
  }
}
