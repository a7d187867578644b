/**
 * findBundleNameFromPath, which the kernel listeners use to key a manager's
 * documents: the last `-bundle` directory of a file path, followed by `:`
 * and the file name when the path names a `.js` file.
 */
module BundlePaths {
  import opened Js
  import opened Strings

  /** `path.sep` on a POSIX system. */
  const Sep: char := '/'

  /** The last of `parts` that ends in `-bundle`, or `""` when none does. */
  function LastBundle(parts: seq<string>): string
  {
    if |parts| == 0 then ""
    else if EndsWith(parts[|parts| - 1], "-bundle") then parts[|parts| - 1]
    else LastBundle(parts[..|parts| - 1])
  }

  /** LastBundle is the matching part that no later part overrides, and is
      empty when no part matches. */
  lemma {:induction false} LastBundleIsLastMatch(parts: seq<string>)
    ensures (forall i :: 0 <= i < |parts| ==> !EndsWith(parts[i], "-bundle")) ==> LastBundle(parts) == ""
    ensures forall i :: 0 <= i < |parts| && EndsWith(parts[i], "-bundle") &&
                        (forall j :: i < j < |parts| ==> !EndsWith(parts[j], "-bundle")) ==>
                        LastBundle(parts) == parts[i]
    decreases |parts|
  {
    if |parts| > 0 {
      var init := parts[..|parts| - 1];
      LastBundleIsLastMatch(init);
      forall i | 0 <= i < |parts| && EndsWith(parts[i], "-bundle") &&
                 (forall j :: i < j < |parts| ==> !EndsWith(parts[j], "-bundle"))
        ensures LastBundle(parts) == parts[i]
      {
        if i < |parts| - 1 {
          assert init[i] == parts[i];
          assert forall j :: i < j < |init| ==> init[j] == parts[j];
        }
      }
      if forall i :: 0 <= i < |parts| ==> !EndsWith(parts[i], "-bundle") {
        assert forall i :: 0 <= i < |init| ==> init[i] == parts[i];
      }
    }
  }

  /** What findBundleNameFromPath returns for `filePath`. */
  function BundleName(filePath: string): string
  {
    NameOfSegments(Split(filePath, Sep))
  }

  /** The bundle part of the segments, then the file part of a `.js` last segment. */
  function NameOfSegments(parts: seq<string>): string
    requires |parts| > 0
  {
    var last := parts[|parts| - 1];
    LastBundle(parts) + (if EndsWith(last, ".js") then ":" + ReplaceFirst(last, ".js", "") else "")
  }

  /** The result in terms of the path's segments: the bundle part, then, for
      a `.js` file, a colon and the file name with its first `.js` removed,
      which for a name holding `.js` only at its end is the name without the
      extension. */
  lemma BundleNameOfSegments(parts: seq<string>)
    requires |parts| > 0
    ensures var last := parts[|parts| - 1];
      && (!EndsWith(last, ".js") ==> NameOfSegments(parts) == LastBundle(parts))
      && (EndsWith(last, ".js") && (forall j :: 0 <= j < |last| - 3 ==> !OccursAt(last, ".js", j)) ==>
            NameOfSegments(parts) == LastBundle(parts) + ":" + last[..|last| - 3])
  {
    var last := parts[|parts| - 1];
    if EndsWith(last, ".js") && (forall j :: 0 <= j < |last| - 3 ==> !OccursAt(last, ".js", j)) {
      StripExtension(last);
    }
  }

  /** Removing the first `.js` of a name that holds it only at its end
      removes the extension. */
  lemma StripExtension(name: string)
    requires EndsWith(name, ".js")
    requires forall j :: 0 <= j < |name| - 3 ==> !OccursAt(name, ".js", j)
    ensures ReplaceFirst(name, ".js", "") == name[..|name| - 3]
  {
    assert OccursAt(name, ".js", |name| - 3);
    ReplaceFirstOccurrence(name, ".js", "", |name| - 3);
    assert name[|name| - 3 + 3..] == "";
  }

  /** `findBundleNameFromPath(filePath)`: split on the separator, keep the
      last segment ending in `-bundle`, then append the file name of a `.js`
      last segment. */
  method FindBundleNameFromPath(filePath: string) returns (namespace: string)
    ensures namespace == BundleName(filePath)
  {
    var parts := Split(filePath, Sep);
    namespace := "";
    var i := 0;
    while i < |parts|
      invariant 0 <= i <= |parts|
      invariant namespace == LastBundle(parts[..i])
    {
      assert parts[..i + 1][..i] == parts[..i];
      if EndsWith(parts[i], "-bundle") {
        namespace := parts[i];
      }
      i := i + 1;
    }
    assert parts[..|parts|] == parts;
    if EndsWith(parts[|parts| - 1], ".js") {
      namespace := namespace + ":" + ReplaceFirst(parts[|parts| - 1], ".js", "");
    }
  }
}
