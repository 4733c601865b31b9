/**
 The drop surface: the application state that survives between frames is the
 action log, one line per dropped file, appended in the order the host
 presents the files and never edited afterwards.
 */
module DropSurface {
  import opened Rewriter

  /** Every dropped item carries a path, which the source unwraps. */
  predicate AllPathsPresent(files: seq<DroppedFile>) {
    forall i :: 0 <= i < |files| ==> files[i].path.Some?
  }

  /** The log lines one frame produces: the outcome line of each dropped file,
      in the order the files were presented, each decided from that file and
      its own replies alone. */
  function FrameLines(files: seq<DroppedFile>, replies: seq<FileReply>): (lines: seq<string>)
    requires |files| == |replies| && AllPathsPresent(files)
    ensures |lines| == |files|
    ensures forall i :: 0 <= i < |files| ==> lines[i] == ProcessFile(files[i], replies[i]).line
  {
    if files == [] then []
    else [ProcessFile(files[0], replies[0]).line] + FrameLines(files[1..], replies[1..])
  }

  /** Processing two batches one after the other logs the same lines as
      processing them as one batch: no file's outcome depends on another's. */
  lemma FrameLinesConcat(f1: seq<DroppedFile>, r1: seq<FileReply>,
                          f2: seq<DroppedFile>, r2: seq<FileReply>)
    requires |f1| == |r1| && AllPathsPresent(f1)
    requires |f2| == |r2| && AllPathsPresent(f2)
    ensures AllPathsPresent(f1 + f2)
    ensures FrameLines(f1 + f2, r1 + r2) == FrameLines(f1, r1) + FrameLines(f2, r2)
  {
    var whole, parts := FrameLines(f1 + f2, r1 + r2), FrameLines(f1, r1) + FrameLines(f2, r2);
    forall i | 0 <= i < |whole|
      ensures whole[i] == parts[i]
    {
      if i < |f1| {
        assert (f1 + f2)[i] == f1[i] && (r1 + r2)[i] == r1[i];
      } else {
        assert (f1 + f2)[i] == f2[i - |f1|] && (r1 + r2)[i] == r2[i - |f1|];
      }
    }
  }

  /** The application. Its only state is the action log. */
  class App {
    var actionsLog: seq<string>

    /** The default application starts with an empty log. */
    constructor ()
      ensures actionsLog == []
    {
      actionsLog := [];
    }

    /**
     One frame: each dropped file, in order, is processed with the replies
     the outside world gives for it, and its outcome line is pushed onto the
     log. The old entries stay as they were, and exactly one entry is added
     per dropped file.
     */
    method Update(files: seq<DroppedFile>, replies: seq<FileReply>)
      requires |files| == |replies| && AllPathsPresent(files)
      modifies this
      ensures |actionsLog| == |old(actionsLog)| + |files|
      ensures actionsLog[..|old(actionsLog)|] == old(actionsLog)
      ensures actionsLog == old(actionsLog) + FrameLines(files, replies)
    {
      var i := 0;
      while i < |files|
        invariant 0 <= i <= |files|
        invariant |actionsLog| == |old(actionsLog)| + i
        invariant actionsLog[..|old(actionsLog)|] == old(actionsLog)
        invariant forall k :: 0 <= k < i ==>
          actionsLog[|old(actionsLog)| + k] == ProcessFile(files[k], replies[k]).line
      {
        actionsLog := actionsLog + [ProcessFile(files[i], replies[i]).line];
        i := i + 1;
      }
    }
  }
}
