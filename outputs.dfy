/**
 * File names the back-end pipeline writes into its output directory, one
 * per job, and the path joining it uses.  The names are built from the
 * job identifier and a fixed suffix per artefact; the lemmas show that no
 * two artefacts, of the same job or of different jobs, share a name.
 */
module Outputs {

  /**
   * The artefacts a pipeline run may leave in the output directory.  Which
   * of them a run actually writes depends on the run: the detection
   * fallbacks write no annotated image or box file, and the skeleton step
   * writes the track only when the annotated image exists.
   */
  datatype Artefact = Roi | Annotated | Bbox | Mask | Skeleton | Track

  /** The fixed tail appended to the job identifier for each artefact. */
  function Suffix(a: Artefact): string
  {
    match a
    case Roi => "_roi.png"              // run_yolo_detect.py
    case Annotated => "_annotated.png"  // run_yolo_detect.py
    case Bbox => "_bbox.json"           // run_yolo_detect.py
    case Mask => "_mask.png"            // run_unet_or_fallback.py
    case Skeleton => "_skeleton.png"    // skeleton.py
    case Track => "_track.png"          // skeleton.py
  }

  /** The file name `f"{job_id}_<artefact>.<ext>"` of an artefact of one job. */
  function OutputName(jobId: string, a: Artefact): string
  {
    jobId + Suffix(a)
  }

  /**
   * `os.path.join(dir, name)` for one further component: an absolute
   * component replaces the directory, and a separator is inserted only
   * when the directory is non-empty and does not already end in one.
   */
  function Join(dir: string, name: string): (p: string)
    ensures |name| > 0 && name[0] == '/' ==> p == name
  {
    if |name| > 0 && name[0] == '/' then name
    else if dir == [] || dir[|dir| - 1] == '/' then dir + name
    else dir + "/" + name
  }

  /** Stripping a common prefix: equal concatenations with the same head have equal tails. */
  lemma PrefixCancel(p: string, a: string, b: string)
    requires p + a == p + b
    ensures a == b
  {
    assert a == (p + a)[|p|..];
    assert b == (p + b)[|p|..];
  }

  /** If `a + s == b + t` and `s` is no longer than `t`, then `s` ends `t`. */
  lemma ConcatTail(a: string, s: string, b: string, t: string)
    requires a + s == b + t && |s| <= |t|
    ensures t[|t| - |s|..] == s
    ensures |s| == |t| ==> a == b
  {
    var n := |a + s|;
    assert (a + s)[n - |s|..] == s;
    assert (b + t)[n - |s|..] == t[|t| - |s|..];
    if |s| == |t| {
      assert a == (a + s)[..|a|];
      assert b == (b + t)[..|b|];
    }
  }

  /** No suffix is a proper tail of another one, nor equal to another one. */
  lemma SuffixesSuffixFree(a1: Artefact, a2: Artefact)
    requires |Suffix(a1)| <= |Suffix(a2)|
    requires Suffix(a2)[|Suffix(a2)| - |Suffix(a1)|..] == Suffix(a1)
    ensures a1 == a2
  {
    var s, t := Suffix(a1), Suffix(a2);
    assert t[|t| - 6] == s[|s| - 6];
    assert t[|t| - 7] == s[|s| - 7];
    assert SuffixKey(a1) == SuffixKey(a2);
  }

  /** Two characters that tell the suffixes apart: the 7th and 6th from the end. */
  function SuffixKey(a: Artefact): (k: (char, char))
    ensures k == (Suffix(a)[|Suffix(a)| - 7], Suffix(a)[|Suffix(a)| - 6])
  {
    match a
    case Roi => ('r', 'o')
    case Annotated => ('t', 'e')
    case Bbox => ('o', 'x')
    case Mask => ('a', 's')
    case Skeleton => ('t', 'o')
    case Track => ('a', 'c')
  }

  /**
   * Output names are injective: two artefacts share a file name only if
   * they are the same artefact of the same job.  So the six files of one
   * job are pairwise distinct, and distinct jobs never overwrite each
   * other's files.
   */
  lemma OutputNameInjective(j1: string, a1: Artefact, j2: string, a2: Artefact)
    requires OutputName(j1, a1) == OutputName(j2, a2)
    ensures j1 == j2 && a1 == a2
  {
    if |Suffix(a1)| <= |Suffix(a2)| {
      ConcatTail(j1, Suffix(a1), j2, Suffix(a2));
      SuffixesSuffixFree(a1, a2);
    } else {
      ConcatTail(j2, Suffix(a2), j1, Suffix(a1));
      SuffixesSuffixFree(a2, a1);
    }
    ConcatTail(j1, Suffix(a1), j2, Suffix(a2));
  }

  /**
   * Two different artefacts of one job land at different paths of the
   * same output directory: both names start alike, so `Join` treats them
   * alike, and the names differ.
   */
  lemma JoinedOutputsDistinct(dir: string, jobId: string, a1: Artefact, a2: Artefact)
    requires a1 != a2
    ensures Join(dir, OutputName(jobId, a1)) != Join(dir, OutputName(jobId, a2))
  {
    var n1, n2 := OutputName(jobId, a1), OutputName(jobId, a2);
    assert n1[0] == n2[0] by {
      if |jobId| > 0 {
        assert n1[0] == jobId[0] && n2[0] == jobId[0];
      }
    }
    if Join(dir, n1) == Join(dir, n2) {
      if n1[0] == '/' {
        OutputNameInjective(jobId, a1, jobId, a2);
      } else if dir == [] || dir[|dir| - 1] == '/' {
        PrefixCancel(dir, n1, n2);
        OutputNameInjective(jobId, a1, jobId, a2);
      } else {
        assert dir + "/" + n1 == (dir + "/") + n1 && dir + "/" + n2 == (dir + "/") + n2;
        PrefixCancel(dir + "/", n1, n2);
        OutputNameInjective(jobId, a1, jobId, a2);
      }
    }
  }
}
