/**
 * commit_write.py: the decision logic of `handle_commit_flow`. The preview, the
 * editor session and `git commit` are recorded as actions; the text the user
 * leaves in the editor is a parameter.
 */
module CommitWrite {
  import opened Strings

  /** The side effects of `handle_commit_flow`, in the order they happen. */
  datatype CommitAction =
    | Preview(message: string)
    | Edit(message: string)
    | Commit(message: string)

  /** `edit_message_interactively`: what the editor leaves in the file, stripped. */
  function EditedMessage(editorText: string): string {
    Strip(editorText)
  }

  /** The edited message is a stretch of the editor text that neither starts nor ends with whitespace. */
  lemma EditedMessageTrimmed(editorText: string)
    ensures var m := EditedMessage(editorText);
      && (|m| > 0 ==> !IsSpace(m[0]) && !IsSpace(m[|m| - 1]))
      && exists i :: OccursAt(editorText, m, i)
  {
    StripShape(editorText);
  }

  /** The message that would be committed: the edited text with `--edit`, the original otherwise. */
  function FinalMessage(message: string, edit: bool, editorText: string): string {
    if edit then EditedMessage(editorText) else message
  }

  /** Whether a commit is performed. */
  predicate Commits(confirm: bool, edit: bool, dryRun: bool) {
    !dryRun && (confirm || edit)
  }

  /** The number of commits in an action log. */
  function CommitCount(actions: seq<CommitAction>): nat {
    if actions == [] then 0
    else CommitCount(actions[..|actions| - 1]) + (if actions[|actions| - 1].Commit? then 1 else 0)
  }

  /**
   * The actions of a call that previews `message`, edits when `edits`, and
   * commits `final` when `commits`.
   */
  function Steps(message: string, edits: bool, commits: bool, final: string): seq<CommitAction> {
    [Preview(message)]
    + (if edits then [Edit(message)] else [])
    + (if commits then [Commit(final)] else [])
  }

  /** The actions of one call, as the specification of `HandleCommitFlow`. */
  function Flow(message: string, confirm: bool, edit: bool, dryRun: bool, editorText: string): seq<CommitAction> {
    Steps(message, !dryRun && edit, Commits(confirm, edit, dryRun), FinalMessage(message, edit, editorText))
  }

  /**
   * `handle_commit_flow`: preview first; with `--dry-run` nothing else; otherwise
   * an editor session with `--edit`, then a commit of the final message when
   * `--confirm` or `--edit` is given.
   */
  method HandleCommitFlow(message: string, confirm: bool, edit: bool, dryRun: bool, editorText: string)
    returns (actions: seq<CommitAction>)
    ensures actions == Flow(message, confirm, edit, dryRun, editorText)
    ensures |actions| >= 1 && actions[0] == Preview(message)
    ensures dryRun ==> actions == [Preview(message)]
    ensures CommitCount(actions) <= 1
  {
    actions := [Preview(message)];
    if dryRun {
      return;
    }
    var finalMessage := message;
    if edit {
      actions := actions + [Edit(message)];
      finalMessage := EditedMessage(editorText);
    }
    if confirm || edit {
      actions := actions + [Commit(finalMessage)];
    }
    StepsCommitCount(message, edit, confirm || edit, finalMessage);
  }

  /** The three shapes of an action log with an edit session. */
  lemma EditSteps(message: string, commits: bool, final: string)
    ensures commits ==> Steps(message, true, commits, final) == [Preview(message), Edit(message), Commit(final)]
    ensures !commits ==> Steps(message, true, commits, final) == [Preview(message), Edit(message)]
  {
    if commits {
      ThreeSingletons(Preview(message), Edit(message), Commit(final));
    }
  }

  /** The shapes of an action log without an edit session. */
  lemma PlainSteps(message: string, commits: bool, final: string)
    ensures commits ==> Steps(message, false, commits, final) == [Preview(message), Commit(final)]
    ensures !commits ==> Steps(message, false, commits, final) == [Preview(message)]
  {
  }

  /** Three singletons joined form the three-element sequence. */
  lemma ThreeSingletons<T>(a: T, b: T, c: T)
    ensures [a] + [b] + [c] == [a, b, c]
  {
  }

  /** A log counts one commit exactly when it commits. */
  lemma StepsCommitCount(message: string, edits: bool, commits: bool, final: string)
    ensures CommitCount(Steps(message, edits, commits, final)) == (if commits then 1 else 0)
  {
    var acts := Steps(message, edits, commits, final);
    if edits {
      EditSteps(message, commits, final);
    } else {
      PlainSteps(message, commits, final);
    }
    assert forall i :: 0 <= i < |acts| - 1 ==> !acts[i].Commit?;
    CommitCountBound(acts);
  }

  /**
   * The log starts with the preview; a commit is only ever the last action and
   * carries `final`; an edit session is only ever the second action.
   */
  lemma StepsOrder(message: string, edits: bool, commits: bool, final: string)
    ensures var acts := Steps(message, edits, commits, final);
      && acts[0] == Preview(message)
      && (forall i :: 0 <= i < |acts| && acts[i].Commit? ==> i == |acts| - 1 && acts[i].message == final)
      && (forall i :: 0 <= i < |acts| && acts[i].Edit? ==> i == 1 && edits)
      && (edits ==> acts[1] == Edit(message))
  {
    if edits {
      EditSteps(message, commits, final);
    } else {
      PlainSteps(message, commits, final);
    }
  }

  /**
   * Over the flags of `handle_commit_flow`: a dry run only previews; a commit
   * happens exactly when it is not a dry run and `--confirm` or `--edit` is
   * given, happens once, comes last and carries the final message; an editor
   * session happens exactly with `--edit` outside a dry run, right after the
   * preview.
   */
  lemma FlowProperties(message: string, confirm: bool, edit: bool, dryRun: bool, editorText: string)
    ensures var acts := Flow(message, confirm, edit, dryRun, editorText);
      && acts[0] == Preview(message)
      && (dryRun ==> acts == [Preview(message)])
      && CommitCount(acts) == (if Commits(confirm, edit, dryRun) then 1 else 0)
      && (forall i :: 0 <= i < |acts| && acts[i].Commit? ==>
            i == |acts| - 1 && acts[i].message == FinalMessage(message, edit, editorText))
      && (forall i :: 0 <= i < |acts| && acts[i].Edit? ==> i == 1 && !dryRun && edit)
      && (!dryRun && edit ==> acts[1] == Edit(message))
  {
    var final := FinalMessage(message, edit, editorText);
    StepsCommitCount(message, !dryRun && edit, Commits(confirm, edit, dryRun), final);
    StepsOrder(message, !dryRun && edit, Commits(confirm, edit, dryRun), final);
    if dryRun {
      PlainSteps(message, false, final);
    }
  }

  /** A log with a commit only in its last place counts at most one commit. */
  lemma {:induction false} CommitCountBound(actions: seq<CommitAction>)
    requires forall i :: 0 <= i < |actions| - 1 ==> !actions[i].Commit?
    ensures CommitCount(actions) <= 1
    ensures CommitCount(actions) == 1 <==> |actions| > 0 && actions[|actions| - 1].Commit?
  {
    if actions != [] {
      var init := actions[..|actions| - 1];
      CommitCountZero(init);
    }
  }

  /** A log without commits counts none. */
  lemma {:induction false} CommitCountZero(actions: seq<CommitAction>)
    requires forall i :: 0 <= i < |actions| ==> !actions[i].Commit?
    ensures CommitCount(actions) == 0
  {
    if actions != [] {
      CommitCountZero(actions[..|actions| - 1]);
    }
  }

  /** Editing without `--confirm` still commits, and commits the edited text. */
  lemma EditImpliesCommit(message: string, editorText: string)
    ensures Commits(false, true, false)
    ensures FinalMessage(message, true, editorText) == Strip(editorText)
  {
  }

  /** Whitespace around the edited text never reaches the commit. */
  lemma EditedMessageStable(editorText: string)
    ensures EditedMessage(EditedMessage(editorText)) == EditedMessage(editorText)
  {
    StripIdempotent(editorText);
  }
}
