/** `create_imageTs` of inference_split.py: copy into the test-image directory every
    volume whose path contains one of the validation case names.

    The files the utility writes are modelled as a map from each destination path to
    the volume whose bytes it holds (the volumes themselves are only read). The match
    is Python's `case in path`: substring containment anywhere in the full path. */
module InferenceSplit {
  import opened Wrappers
  import opened Paths

  /** Destination path -> the volume it is a copy of. */
  type Copies = map<Path, Path>

  /** One entry of the split file: "train" and "val" lists of case names. */
  type SplitEntry = map<string, seq<string>>

  datatype SplitError = KeyError(key: string)

  /** `sub` occurs in `s` starting at index `i`. */
  ghost predicate OccursAt(s: string, sub: string, i: int) {
    0 <= i && i + |sub| <= |s| && s[i..i + |sub|] == sub
  }

  /** Python's `sub in s` on strings. */
  predicate Contains(s: string, sub: string)
    decreases |s|
  {
    sub <= s || (s != [] && Contains(s[1..], sub))
  }

  /** A slice of the tail of `s` is the slice of `s` one further on. */
  lemma SliceOfTail(s: string, i: nat, n: nat)
    requires s != [] && i + n <= |s| - 1
    ensures s[1..][i..i + n] == s[i + 1..i + 1 + n]
  {
    var a, b := s[1..][i..i + n], s[i + 1..i + 1 + n];
    forall k | 0 <= k < n
      ensures a[k] == b[k]
    {
    }
  }

  /** `Contains` is substring containment: `sub` occurs somewhere in `s`. */
  lemma {:induction false} ContainsIffOccurs(s: string, sub: string)
    ensures Contains(s, sub) <==> exists i :: OccursAt(s, sub, i)
    decreases |s|
  {
    if sub <= s {
      assert s[0..|sub|] == sub;
      assert OccursAt(s, sub, 0);
    }
    if s != [] {
      ContainsIffOccurs(s[1..], sub);
      if Contains(s[1..], sub) {
        var i :| OccursAt(s[1..], sub, i);
        SliceOfTail(s, i, |sub|);
        assert OccursAt(s, sub, i + 1);
      }
      if exists i :: OccursAt(s, sub, i) {
        var i :| OccursAt(s, sub, i);
        if i > 0 {
          SliceOfTail(s, i - 1, |sub|);
          assert OccursAt(s[1..], sub, i - 1);
        } else {
          assert sub <= s;
        }
      }
    } else if exists i :: OccursAt(s, sub, i) {
      assert sub == [];
    } else {
      assert OccursAt(s, sub, 0) ==> sub == [];
    }
  }

  /** The volume at `path` is copied: the inner loop over the first `|cases|` validation
      case names finds one that occurs in it. */
  predicate Selected(path: Path, cases: seq<string>)
    decreases |cases|
  {
    cases != [] && (Selected(path, cases[..|cases| - 1]) || Contains(path, cases[|cases| - 1]))
  }

  /** A volume is selected exactly when some validation case name occurs in its path. */
  lemma {:induction false} SelectedIffSomeCase(path: Path, cases: seq<string>)
    ensures Selected(path, cases) <==> exists c :: c in cases && Contains(path, c)
    decreases |cases|
  {
    if cases != [] {
      var init := cases[..|cases| - 1];
      SelectedIffSomeCase(path, init);
      if exists c :: c in cases && Contains(path, c) {
        var c :| c in cases && Contains(path, c);
        if c != cases[|cases| - 1] {
          assert c in init;
        }
      }
      if exists c :: c in init && Contains(path, c) {
        var c :| c in init && Contains(path, c);
        assert c in cases;
      }
    }
  }

  /** `os.path.join(output_dir, path.split('/')[-1])`. */
  function Destination(outputDir: Path, path: Path): Path {
    Join(outputDir, Basename(path))
  }

  /** What the nested loops leave behind after the first volumes of the list, taken in
      order: each selected volume is written to its destination, over whatever was there. */
  function CopySelected(out: Copies, images: seq<Path>, outputDir: Path, cases: seq<string>): Copies
    decreases |images|
  {
    if images == [] then out
    else
      var prev := CopySelected(out, images[..|images| - 1], outputDir, cases);
      var path := images[|images| - 1];
      if Selected(path, cases) then prev[Destination(outputDir, path) := path] else prev
  }

  /** `create_imageTs(images_dir_lt, output_dir, split_dict)`, with the output directory's
      current copies `out`. A split entry without "val" raises before anything is copied. */
  method CreateImageTs(images: seq<Path>, outputDir: Path, split: SplitEntry, out: Copies)
    returns (r: Result<Copies, SplitError>)
    ensures "val" !in split ==> r == Failure(KeyError("val"))
    ensures "val" in split ==> r == Success(CopySelected(out, images, outputDir, split["val"]))
  {
    if "val" !in split {
      return Failure(KeyError("val"));
    }
    var valCases := split["val"];
    var copies := out;
    for i := 0 to |images|
      invariant copies == CopySelected(out, images[..i], outputDir, valCases)
    {
      assert images[..i + 1][..i] == images[..i];
      var path := images[i];
      ghost var before := copies;
      for j := 0 to |valCases|
        invariant copies == if Selected(path, valCases[..j])
                            then before[Destination(outputDir, path) := path] else before
      {
        assert valCases[..j + 1] == valCases[..j] + [valCases[j]];
        if Contains(path, valCases[j]) {
          var name := Basename(path);
          var finalPath := Join(outputDir, name);
          copies := copies[finalPath := path];
        }
      }
      assert valCases[..|valCases|] == valCases;
    }
    assert images[..|images|] == images;
    return Success(copies);
  }

  // ---------------------------------------------------------------------------
  // Properties
  // ---------------------------------------------------------------------------

  /** The run's result is the old directory overlaid with what the run writes, and what
      it writes does not depend on what was there before. */
  lemma {:induction false} CopySelectedOverlay(out: Copies, images: seq<Path>, outputDir: Path, cases: seq<string>)
    ensures CopySelected(out, images, outputDir, cases) == out + CopySelected(map[], images, outputDir, cases)
    decreases |images|
  {
    if images != [] {
      var init, path := images[..|images| - 1], images[|images| - 1];
      CopySelectedOverlay(out, init, outputDir, cases);
      if Selected(path, cases) {
        var d := Destination(outputDir, path);
        var w := CopySelected(map[], init, outputDir, cases);
        assert (out + w)[d := path] == out + w[d := path];
      }
    }
  }

  /** The volume at index `i` of the list is selected and is copied to `dst`. */
  predicate WrittenBy(images: seq<Path>, outputDir: Path, cases: seq<string>, dst: Path, i: int) {
    0 <= i < |images| && CopiedTo(images[i], outputDir, cases, dst)
  }

  /** The volume at `path` is selected and its copy is written to `dst`. */
  predicate CopiedTo(path: Path, outputDir: Path, cases: seq<string>, dst: Path) {
    Selected(path, cases) && Destination(outputDir, path) == dst
  }

  /** One more volume changes at most its own destination, which then holds it. */
  lemma CopyStep(out: Copies, images: seq<Path>, outputDir: Path, cases: seq<string>, dst: Path)
    requires images != []
    ensures var r := CopySelected(out, images, outputDir, cases);
            var prev := CopySelected(out, images[..|images| - 1], outputDir, cases);
            if WrittenBy(images, outputDir, cases, dst, |images| - 1) then dst in r && r[dst] == images[|images| - 1]
            else (dst in r <==> dst in prev) && (dst in prev ==> r[dst] == prev[dst])
  {
  }

  /** The last volume, when selected, holds its destination afterwards. */
  lemma CopyStepWritten(out: Copies, images: seq<Path>, outputDir: Path, cases: seq<string>, dst: Path)
    requires images != [] && WrittenBy(images, outputDir, cases, dst, |images| - 1)
    ensures var r := CopySelected(out, images, outputDir, cases);
            dst in r && r[dst] == images[|images| - 1]
  {
    CopyStep(out, images, outputDir, cases, dst);
  }

  /** A path the last volume is not copied to keeps what the earlier volumes left there. */
  lemma CopyStepElsewhere(out: Copies, images: seq<Path>, outputDir: Path, cases: seq<string>, dst: Path)
    requires images != [] && !WrittenBy(images, outputDir, cases, dst, |images| - 1)
    ensures var r := CopySelected(out, images, outputDir, cases);
            var prev := CopySelected(out, images[..|images| - 1], outputDir, cases);
            (dst in r <==> dst in prev) && (dst in prev ==> r[dst] == prev[dst])
  {
    CopyStep(out, images, outputDir, cases, dst);
  }

  /** Every written path is the destination of some selected volume. */
  lemma {:induction false} WrittenWitness(images: seq<Path>, outputDir: Path, cases: seq<string>, dst: Path)
    returns (i: int)
    requires dst in CopySelected(map[], images, outputDir, cases)
    ensures WrittenBy(images, outputDir, cases, dst, i)
    decreases |images|
  {
    var init := images[..|images| - 1];
    CopyStep(map[], images, outputDir, cases, dst);
    if WrittenBy(images, outputDir, cases, dst, |images| - 1) {
      i := |images| - 1;
    } else {
      i := WrittenWitness(init, outputDir, cases, dst);
      assert images[i] == init[i];
    }
  }

  /** The destination of every selected volume is written. */
  lemma {:induction false} WrittenByIsWritten(images: seq<Path>, outputDir: Path, cases: seq<string>, dst: Path, i: int)
    requires WrittenBy(images, outputDir, cases, dst, i)
    ensures dst in CopySelected(map[], images, outputDir, cases)
    decreases |images|
  {
    var init := images[..|images| - 1];
    CopyStep(map[], images, outputDir, cases, dst);
    if i < |images| - 1 {
      assert init[i] == images[i];
      WrittenByIsWritten(init, outputDir, cases, dst, i);
    }
  }

  /** A path is written exactly when it is the destination of a selected volume. */
  lemma WrittenPaths(images: seq<Path>, outputDir: Path, cases: seq<string>, dst: Path)
    ensures dst in CopySelected(map[], images, outputDir, cases)
            <==> exists i :: WrittenBy(images, outputDir, cases, dst, i)
  {
    if dst in CopySelected(map[], images, outputDir, cases) {
      var i := WrittenWitness(images, outputDir, cases, dst);
    }
    if exists i :: WrittenBy(images, outputDir, cases, dst, i) {
      var i :| WrittenBy(images, outputDir, cases, dst, i);
      WrittenByIsWritten(images, outputDir, cases, dst, i);
    }
  }

  /** What is written by a volume of a prefix of the list is written by the same volume
      of the whole list. */
  lemma WrittenByPrefix(images: seq<Path>, n: nat, outputDir: Path, cases: seq<string>, dst: Path)
    requires n <= |images|
    ensures forall j :: WrittenBy(images[..n], outputDir, cases, dst, j)
                        <==> j < n && WrittenBy(images, outputDir, cases, dst, j)
  {
    forall j ensures WrittenBy(images[..n], outputDir, cases, dst, j)
                     <==> j < n && WrittenBy(images, outputDir, cases, dst, j)
    {
      if 0 <= j < n {
        assert images[..n][j] == images[j];
      }
    }
  }

  /** The last writer of `dst` in a list is its last writer in the list without its final
      volume, when the final volume is not copied there. */
  lemma LastWriterOfInit(images: seq<Path>, init: seq<Path>, outputDir: Path, cases: seq<string>, dst: Path, i: int)
    requires 0 <= i < |images| - 1 && init == images[..|images| - 1]
    requires WrittenBy(images, outputDir, cases, dst, i)
    requires forall j :: i < j ==> !WrittenBy(images, outputDir, cases, dst, j)
    ensures WrittenBy(init, outputDir, cases, dst, i)
    ensures forall j :: i < j ==> !WrittenBy(init, outputDir, cases, dst, j)
  {
    WrittenByPrefix(images, |images| - 1, outputDir, cases, dst);
  }

  /** Last writer wins: a destination holds the last selected volume, in list order,
      that is copied there. */
  lemma {:induction false} LastWriterWins(out: Copies, images: seq<Path>, outputDir: Path, cases: seq<string>,
                                          dst: Path, i: int)
    requires WrittenBy(images, outputDir, cases, dst, i)
    requires forall j :: i < j ==> !WrittenBy(images, outputDir, cases, dst, j)
    ensures var r := CopySelected(out, images, outputDir, cases);
            dst in r && r[dst] == images[i]
    decreases |images|
  {
    if i < |images| - 1 {
      var init := images[..|images| - 1];
      LastWriterOfInit(images, init, outputDir, cases, dst, i);
      LastWriterWins(out, init, outputDir, cases, dst, i);
      assert !WrittenBy(images, outputDir, cases, dst, |images| - 1);
      CopyStepElsewhere(out, images, outputDir, cases, dst);
    } else {
      CopyStepWritten(out, images, outputDir, cases, dst);
    }
  }

  /** Paths that are not the destination of a selected volume keep exactly what they
      held, including being absent. */
  lemma UntouchedElsewhere(out: Copies, images: seq<Path>, outputDir: Path, cases: seq<string>, p: Path)
    requires forall i :: !WrittenBy(images, outputDir, cases, p, i)
    ensures var r := CopySelected(out, images, outputDir, cases);
            (p in r <==> p in out) && (p in out ==> r[p] == out[p])
  {
    CopySelectedOverlay(out, images, outputDir, cases);
    WrittenPaths(images, outputDir, cases, p);
  }

  /** With no validation cases, or when no path contains any of them, the output
      directory is unchanged. */
  lemma NothingSelectedNothingWritten(out: Copies, images: seq<Path>, outputDir: Path, cases: seq<string>)
    requires cases == [] || forall i :: 0 <= i < |images| ==> !Selected(images[i], cases)
    ensures CopySelected(out, images, outputDir, cases) == out
  {
    CopySelectedOverlay(out, images, outputDir, cases);
    forall p ensures p !in CopySelected(map[], images, outputDir, cases) {
      WrittenPaths(images, outputDir, cases, p);
    }
    assert CopySelected(map[], images, outputDir, cases) == map[];
  }

  /** Running the utility twice on the same inputs leaves what running it once does. */
  lemma RunTwiceSameAsOnce(out: Copies, images: seq<Path>, outputDir: Path, cases: seq<string>)
    ensures var once := CopySelected(out, images, outputDir, cases);
            CopySelected(once, images, outputDir, cases) == once
  {
    var w := CopySelected(map[], images, outputDir, cases);
    CopySelectedOverlay(out, images, outputDir, cases);
    CopySelectedOverlay(out + w, images, outputDir, cases);
    assert (out + w) + w == out + w;
  }

  /** A copy keeps the volume's file name, and lands in the output directory. */
  lemma DestinationKeepsName(outputDir: Path, path: Path)
    ensures Basename(Destination(outputDir, path)) == Basename(path)
    ensures outputDir <= Destination(outputDir, path)
  {
    var name := Basename(path);
    BasenameIsLastSegment(path);
    if name != [] {
      assert name[0] in name;
    }
    JoinBasename(outputDir, name);
  }

  /** Matching is on the whole path, so the case "c1" selects the volume of case c10,
      and a case name in a directory component selects every volume below it. */
  lemma SubstringMatchSelectsOtherCases()
    ensures Selected("tr/c10.nii", ["c1"])
    ensures Selected("c2/tr/c7.nii", ["c2"])
  {
    assert Contains("tr/c10.nii", "c1");
    assert "c2" <= "c2/tr/c7.nii";
  }

  /** A case name holding a character that the path lacks does not occur in the path. */
  lemma MissingCharacterNoMatch(s: string, sub: string, k: int)
    requires 0 <= k < |sub| && sub[k] !in s
    ensures !Contains(s, sub)
  {
    ContainsIffOccurs(s, sub);
  }

  /** A case name occurs in any path built around it. */
  lemma {:induction false} ContainsInfix(pre: string, sub: string, post: string)
    ensures Contains(pre + sub + post, sub)
    decreases |pre|
  {
    if pre == [] {
      assert pre + sub + post == sub + post;
    } else {
      ContainsInfix(pre[1..], sub, post);
      assert (pre + sub + post)[1..] == pre[1..] + sub + post;
    }
  }

  /** A volume `dir/name` is copied to `outputDir/name`. */
  lemma DestinationInDirectory(outputDir: Path, dir: Path, name: Path)
    requires '/' !in name && name != []
    requires outputDir != [] && outputDir[|outputDir| - 1] != '/'
    ensures Destination(outputDir, dir + "/" + name) == outputDir + "/" + name
  {
    var p := dir + "/" + name;
    assert p[|p| - |name|..] == name;
    assert p[|p| - |name| - 1] == '/';
    BasenameUnique(p, name);
    assert name[0] in name;
  }

  /** Of two volumes only the selected one is copied. */
  lemma OnlySelectedCopied(out: Copies, v1: Path, v2: Path, outputDir: Path, cases: seq<string>)
    requires !Selected(v1, cases) && Selected(v2, cases)
    ensures CopySelected(out, [v1, v2], outputDir, cases) == out[Destination(outputDir, v2) := v2]
  {
    assert [v1, v2][..1] == [v1];
    assert [v1][..0] == [];
    assert CopySelected(out, [v1], outputDir, cases) == out;
  }

  /** Volumes tr/c1.nii and tr/c2.nii with "val": ["c2"] copy only the second, to ts/c2.nii. */
  lemma ValidationCaseCopiedAlone(v1: Path, v2: Path, outputDir: Path, cases: seq<string>)
    requires v1 == "tr/c1.nii" && v2 == "tr/c2.nii" && outputDir == "ts" && cases == ["c2"]
    ensures CopySelected(map[], [v1, v2], outputDir, cases) == map["ts/c2.nii" := "tr/c2.nii"]
  {
    assert !Selected(v1, cases) by {
      MissingCharacterNoMatch(v1, "c2", 1);
      assert cases[..0] == [];
    }
    assert Selected(v2, cases) by {
      ContainsInfix("tr/", "c2", ".nii");
      assert "tr/" + "c2" + ".nii" == v2;
      assert cases[..0] == [];
    }
    assert Destination(outputDir, v2) == "ts/c2.nii" by {
      DestinationInDirectory(outputDir, "tr", "c2.nii");
      assert "tr" + "/" + "c2.nii" == v2;
    }
    OnlySelectedCopied(map[], v1, v2, outputDir, cases);
  }
}
