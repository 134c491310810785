// read_requirements: the list comprehension that turns the lines of the
// requirements file into requirement strings. The file is given as its
// lines, already split.

module Setup {
  import opened Common

  /** The filter of the comprehension: the comment test looks at the raw
      line, the emptiness test at the stripped one. */
  predicate Kept(line: string) {
    Strip(line) != "" && !StartsWith(line, "#")
  }

  function ReadRequirements(lines: seq<string>): seq<string>
    decreases |lines|
  {
    if lines == [] then []
    else
      var n := |lines| - 1;
      ReadRequirements(lines[..n]) + (if Kept(lines[n]) then [Strip(lines[n])] else [])
  }

  /** The positions of the kept lines. */
  function KeptPositions(lines: seq<string>): seq<nat>
    decreases |lines|
  {
    if lines == [] then []
    else
      var n := |lines| - 1;
      KeptPositions(lines[..n]) + (if Kept(lines[n]) then [n] else [])
  }

  /** The requirements are the stripped kept lines, in input order: one per
      kept position, the positions increasing, a position listed exactly when
      its raw line is kept. Every requirement is non-empty and already
      stripped. */
  lemma {:induction false} RequirementsSpec(lines: seq<string>)
    ensures var r := ReadRequirements(lines);
      var ps := KeptPositions(lines);
      && |r| == |ps|
      && (forall i, j :: 0 <= i < j < |ps| ==> ps[i] < ps[j])
      && (forall i :: 0 <= i < |ps| ==> ps[i] < |lines| && r[i] == Strip(lines[ps[i]]))
      && (forall k :: 0 <= k < |lines| ==> (k in ps <==> Kept(lines[k])))
      && (forall i :: 0 <= i < |r| ==> r[i] != "" && Strip(r[i]) == r[i])
    decreases |lines|
  {
    if lines != [] {
      var n := |lines| - 1;
      var front := lines[..n];
      RequirementsSpec(front);
      assert forall k :: 0 <= k < n ==> front[k] == lines[k];
      if Kept(lines[n]) {
        StripIdempotent(lines[n]);
      }
    }
  }

  /** An indented comment passes the raw `#` test and is kept in its
      stripped form; a comment at the start of a line and a blank line are
      dropped. */
  lemma IndentedCommentKept()
    ensures ReadRequirements(["  # x"]) == ["# x"]
    ensures ReadRequirements(["# x"]) == []
    ensures ReadRequirements(["   "]) == []
  {
    assert ["  # x"][..0] == [];
    assert Strip("  # x") == "# x" by {
      assert "  # x"[1..] == " # x" && " # x"[1..] == "# x";
      assert TrimRight("# x") == "# x";
    }
    assert !StartsWith("  # x", "#");
    assert Strip("   ") == "" by {
      assert "   "[1..] == "  " && "  "[1..] == " " && " "[1..] == "";
    }
  }
}
