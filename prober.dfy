/**
 * Path probing: join each candidate name onto a base directory and keep the first
 * joined path that exists. The path-join routine and the filesystem are not part of
 * this model; they are given as a `FileSystem` value.
 */
module Prober {

  import opened Options

  /** The environment the prober consults: a join that may fail, and the set of paths that exist. */
  datatype FileSystem = FileSystem(join: (string, string) -> Option<string>, existing: set<string>)

  /** A candidate counts as found when the join succeeds and the joined string exists. */
  predicate Hit(fs: FileSystem, base: string, name: string)
  {
    fs.join(base, name).Some? && fs.join(base, name).value in fs.existing
  }

  /**
   * The first candidate, in order, whose joined path exists. A candidate whose join
   * fails is skipped exactly like one whose path does not exist.
   */
  function FirstExisting(fs: FileSystem, base: string, names: seq<string>): (r: Option<string>)
    ensures r.Some? ==> r.value in fs.existing
    ensures r.None? <==> forall i :: 0 <= i < |names| ==> !Hit(fs, base, names[i])
    decreases |names|
  {
    if names == [] then None
    else if Hit(fs, base, names[0]) then fs.join(base, names[0])
    else
      var rest := FirstExisting(fs, base, names[1..]);
      assert forall i :: 1 <= i < |names| ==> names[i] == names[1..][i - 1];
      rest
  }

  /** Priority order: the result is the joined path of the first candidate that is found. */
  lemma {:induction false} FirstExistingAt(fs: FileSystem, base: string, names: seq<string>, i: int)
    requires 0 <= i < |names| && Hit(fs, base, names[i])
    requires forall j :: 0 <= j < i ==> !Hit(fs, base, names[j])
    ensures FirstExisting(fs, base, names) == fs.join(base, names[i])
    decreases i
  {
    if i > 0 {
      assert !Hit(fs, base, names[0]);
      assert forall j :: 0 <= j < i - 1 ==> names[1..][j] == names[j + 1];
      FirstExistingAt(fs, base, names[1..], i - 1);
    }
  }

  /** A non-empty result is always the joined path of some candidate that is found. */
  lemma {:induction false} FirstExistingWitness(fs: FileSystem, base: string, names: seq<string>)
    requires FirstExisting(fs, base, names).Some?
    ensures exists i :: 0 <= i < |names| && Hit(fs, base, names[i])
                        && FirstExisting(fs, base, names) == fs.join(base, names[i])
                        && forall j :: 0 <= j < i ==> !Hit(fs, base, names[j])
    decreases |names|
  {
    if Hit(fs, base, names[0]) {
      assert FirstExisting(fs, base, names) == fs.join(base, names[0]);
    } else {
      FirstExistingWitness(fs, base, names[1..]);
      var k :| 0 <= k < |names[1..]| && Hit(fs, base, names[1..][k])
               && FirstExisting(fs, base, names[1..]) == fs.join(base, names[1..][k])
               && forall j :: 0 <= j < k ==> !Hit(fs, base, names[1..][j]);
      assert forall j :: 0 <= j < k + 1 ==> !Hit(fs, base, names[j]) by {
        forall j | 0 <= j < k + 1 ensures !Hit(fs, base, names[j]) {
          if j > 0 { assert names[j] == names[1..][j - 1]; }
        }
      }
      assert names[k + 1] == names[1..][k];
    }
  }

  /**
   * The candidate loop of the binary- and library-directory resolvers: a `for` over the
   * names that goes on to the next name when the join fails and returns the first joined
   * path that exists.
   */
  method ProbeFirstExisting(fs: FileSystem, base: string, names: seq<string>) returns (r: Option<string>)
    ensures r == FirstExisting(fs, base, names)
  {
    for i := 0 to |names|
      invariant FirstExisting(fs, base, names) == FirstExisting(fs, base, names[i..])
    {
      assert names[i..][1..] == names[i + 1..];
      var joined := fs.join(base, names[i]);
      if joined.None? {
        continue;
      }
      var existingPath := joined.value;
      if existingPath in fs.existing {
        return Some(existingPath);
      }
    }
    return None;
  }

}
