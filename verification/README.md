# Verified model of the agent workbench

This Dafny project models the parts of the repository in which state, order and arithmetic meet, and
proves what they promise.

- `Terminal`, `Text`, `Tui`, `Renderer`: the differential terminal renderer. The terminal is a machine
  with a screen, a scrollback and a cursor; the renderer's output is a list of commands; the theorem is
  that interpreting them yields the viewport of the new lines; `DrawnText` says what text that is.
- `Layout`, `Ansi`: truncation, clipping and word wrap on lines of glyphs, tabs and whole escapes, and the
  scanner that cuts text into escapes and characters.
- `PlanMode`, `PlanProofs`, `PlanReplay`, `PlanSources`, `PlanSession`: Plan Mode as an event-sourced state machine. The reducer
  validates and folds any log; the session appends to its log under guards; the theorems say what every
  accepted log keeps and that guards and reducer fit together, across crash, restart and handoff.
- `Agent`, `AgentTools`, `AgentOutcomes`, `AgentRecord`, `AgentRun`: the agent's dual loop, its two tool strategies, its queues and the
  transcript rebuilt from events. Model, tools, hooks and queue traffic are inputs.
- `Timeline`, `TimelineProofs`, `TimelineRuns`, `TimelineMeaning`: the frame-batched timeline reducer
  against the reduction of one event at a time, and what a stream of events shows.
- `Images`, `Gif`, `Webp`, `ImageHeaders`: the header scanners against the grammars of their formats (the
  GIF89a specification and RFC 9649), and against files written out from their sizes.
- `EventStreams`, `Replay`: the push stream and its lazy wrapper, and terminal output between the
  desktop host and a panel.

Code that updates things in place is modelled by classes and loops proved against functions of values;
code made of expressions is modelled by functions. `dafny verify dfyconfig.toml` checks everything.

## Where the code falls short of a promise

Each of these is proved with the exact condition, and the model keeps the code as it is.

- Line endings are normalised once, and the reducer demands a fixed point: a submitted plan with two
  carriage returns before a line feed is written and then rejected on replay
  (`PlanProofs.NormalizeIdempotent`, `PlanSession.PlanSession.SubmitPlan`, `PlanSession.AcceptedThenRejected`).
- The id of a run is written unchecked: a caller that brings a used or invalid one is left with an error and,
  once the entry is flushed, with a run of its own (`PlanSession.PlanSession.StartPlanRun`).
- On a terminal of one column without delayed wrap a full line leaves its row
  (`Renderer.FullLineStaysOnRow`, `Renderer.OneColumnFrameIsLost`), so frames are drawn right for every
  other size.
- The renderer sees the size of the terminal only when it draws. A resize that is undone before the next
  frame goes unnoticed, and the terminal may show anything: such a run is lost until a frame clears the
  screen (`Renderer.EventLoop`). Until then a frame is right in exactly the rows it rewrites and those that
  were right, provided the cursor is on the row it is taken to be on (`Renderer.TUI.DoRender`,
  `Renderer.ScreenIsRight`, `Renderer.UndoneResizeStaysWrong`); with the cursor on another row it overwrites
  the rows its move leads to (`Renderer.RewrittenElsewhere`, `Renderer.CursorElsewhereBreaks`).
- A tab is measured as three columns, and a terminal jumps to the next stop (`Text.MeasuredRight`).
- The result of a stream is documented never to fail. It does not arrive at all for a lazy stream whose
  source ends by itself without a terminal event (`EventStreams.DriverResult`).
- A hook that raises for an unknown tool leaves a started call without its end and fails the run
  (`AgentTools.ExecuteToolCalls`).
- Batch termination is documented as prevented by error results. A tool can return a failed result with the
  flag set, and an after-hook can set the flag on one; a batch with errors terminates exactly when every
  call of it asks to stop (`AgentTools.ErrorBatchTerminates`, `AgentTools.FailedToolTerminates`).
- Batching differs from one event at a time outside protocol order
  (`TimelineProofs.BatchedStepIsExact`, `TimelineRuns.UpdateThenApprovalDiffers`).
- A panel tells terminals apart by key only; a late event of an earlier terminal under the same key can
  hide output, exactly when it is ahead (`Replay.LateEventsAreHarmless`, `Replay.LateEventAheadBreaks`).
- A terminal keeps its key until its process has stopped: a request in between is answered with the
  terminal that is going away (`Replay.ClosingIsAnswered`, `Replay.ReopenedWhileClosing`).
- A prompt that is cancelled while the model answers ends its run with a turn that was begun and has no end
  (`AgentRun.Prompt`).
- Stripping escapes, and so measuring, is additive exactly behind text without an open escape
  (`Ansi.StripConcat`, `Ansi.OpenEscapeTakesReset`), and idempotent exactly where no left-over ESC reopens
  (`Ansi.StripIdempotent`, `Ansi.StrippingCanMakeAnEscape`).

## Model

| member | source | states |
|---|---|---|
| Renderer.EventLoop | packages/tui/src/agent_tui/tui.py:392-747 | over any run of frames, resizes and forced redraws from any terminal: the terminal at each moment is what the emitted commands make of the one before, or the resized one; and every frame is what it then shows - screen row k is the component line top + k, cell by cell, rows past the end are blank, the lines above are in the scrollback - unless the terminal changed after the last frame without changing size and nothing has cleared it since |
| Renderer.HandleFrame | packages/tui/src/agent_tui/tui.py:456-747 | one frame of such a run: what was written in it is all that separates the terminal after it from the one before |
| Renderer.ScreenIsRight | packages/tui/src/agent_tui/tui.py:611-747 | on a terminal that shows something else, an incremental frame leaves the screen right if and only if every row it does not rewrite was right |
| Renderer.UndoneResizeStaysWrong | packages/tui/src/agent_tui/tui.py:483-588 | a family of inputs: a blank screen of the size of the last frame stays blank under the same non-empty frame |
| Renderer.CursorElsewhereBreaks | packages/tui/src/agent_tui/tui.py:659-693 | the same output on a terminal whose cursor is on another row overwrites the wrong line |
| Renderer.RewrittenElsewhere | packages/tui/src/agent_tui/tui.py:659-693 | on any terminal, wherever its cursor is: the output of a frame that is no shorter puts the changed lines one under the other from the row in which its move ends, as far from the cursor as the screen allows, and leaves every other row as it was |
| Renderer.RedrawnRow | packages/tui/src/agent_tui/tui.py:611-747 | row by row: right afterwards if and only if rewritten, or right before, wherever on the screen it was then |
| Renderer.RowsCovered | packages/tui/src/agent_tui/tui.py:559-583 | a first frame on a screen that is not blank: a row is right if and only if what was there is no longer than what is printed over it |
| Renderer.TUI.DoRender | packages/tui/src/agent_tui/tui.py:456-747 | one frame, by whichever path, on any terminal: if the terminal held the last frame or is cleared it shows the lines of the components, cell by cell, and the renderer knows its cursor row; the viewport moves, and the screen is cleared, exactly as the choice of path says; the cursor lands on the lowest visible marker not above the old viewport; no block of synchronized output is left open; otherwise a row is right exactly where it was rewritten or right before, and an unchanged frame changes nothing |
| Renderer.TUI.DrawFrame | packages/tui/src/agent_tui/tui.py:506-588 | the same for a frame whose components have been rendered |
| Renderer.TUI.RenderLines | packages/tui/src/agent_tui/tui.py:559-588 | drawing everything and drawing the changes both turn a terminal in step with the old lines into one in step with the new lines |
| Renderer.TUI.RenderChanges | packages/tui/src/agent_tui/tui.py:599-654 | a frame is drawn incrementally exactly when no line above the viewport changes and the viewport is not past the new end; otherwise everything is redrawn |
| Renderer.TUI.WriteDiff | packages/tui/src/agent_tui/tui.py:656-747 | the incremental write keeps the terminal in step, its viewport at the old top or as far down as the new lines push it, without a full redraw |
| Renderer.DiffBuffer | packages/tui/src/agent_tui/tui.py:656-706 | whatever the terminal shows, the emitted commands replace exactly the rows from the first to the last changed line, with rows appended exactly past the bottom; for a frame that is no shorter they are the move and the rewriting of the changed lines |
| Renderer.Approach | packages/tui/src/agent_tui/tui.py:659-687 | the relative moves reach the first line to rewrite without being clamped; the branch for a target below the viewport is never taken |
| Renderer.RewriteLines | packages/tui/src/agent_tui/tui.py:689-693 | the changed lines replace exactly their rows |
| Renderer.ClearBelow | packages/tui/src/agent_tui/tui.py:697-706 | rows left over from a longer frame are blanked and the cursor comes back |
| Renderer.ClearRows | packages/tui/src/agent_tui/tui.py:849-891 | a block of rows is blanked from the cursor on |
| Renderer.FinishDiff | packages/tui/src/agent_tui/tui.py:708-736 | the cursor move inside the synchronized block reaches the marker and the recorded row is the real one |
| Renderer.FullLineStaysOnRow | packages/tui/src/agent_tui/tui.py:472-482 | a line of full frame width leaves the cursor on its row if and only if the terminal delays wrapping or has at least two columns |
| Renderer.FrameIsWidest | packages/tui/src/agent_tui/tui.py:472-482 | on every other terminal a line stays on its row if and only if it is no wider than the frame |
| Renderer.OneColumnFrameIsLost | packages/tui/src/agent_tui/tui.py:472-557 | on a terminal of one column and one row without delayed wrap a frame of one full line is not shown |
| Renderer.FindChanges | packages/tui/src/agent_tui/tui.py:599-616 | first and last differing line, where lines past an end count as empty, and appended lines always count |
| Renderer.ReachableChanges | packages/tui/src/agent_tui/tui.py:611-654 | where the first change lies decides between drawing nothing, erasing the tail, the incremental update and the full redraw |
| Renderer.RedrawnInStep | packages/tui/src/agent_tui/tui.py:656-747 | replacing those rows turns a terminal that holds the old lines into one that holds the new lines |
| Renderer.LastRowTop | packages/tui/src/agent_tui/tui.py:739-747 | the viewport top recorded from the last row written is the one the new lines push the screen to |
| Renderer.ExtractCursorPosition | packages/tui/src/agent_tui/tui.py:756-803 | the first marker of each line is stripped, and the lowest one inside the viewport is reported with the width before it |
| Renderer.SameCursor | packages/tui/src/agent_tui/tui.py:509-522 | the lowest visible marker does not depend on the viewport estimate it is searched with, as long as it is not above it |
| Renderer.FitAndReset | packages/tui/src/agent_tui/tui.py:524-533 | every drawn line is clipped to the width and closed |
| DrawnText.ComponentsAreShown | packages/tui/src/agent_tui/tui.py:524-533 | where the terminal shows the drawn lines, each row is the cells of the component line itself |
| DrawnText.DrawnRow | packages/tui/src/agent_tui/tui.py:749-754 | a drawn line paints what the component wrote, with two vowels decomposed; one that is too wide paints its longest prefix that fits, and a table row its longest prefix that leaves a column, blanks, and the right border of its kind in the last column |
| DrawnText.PlainRow | packages/tui/src/agent_tui/tui.py:749-754 | a line that fits and has neither vowel is painted exactly as the component wrote it |
| DrawnText.TextIsNormalized | packages/tui/src/agent_tui/utils.py:260-271 | exactly the two vowels are replaced, by the stated pairs, and text around them is treated on its own |
| DrawnText.GlyphIsPainted | packages/tui/src/agent_tui/utils.py:228-244 | a glyph is painted right behind the text in front of it, a part for each of its columns |
| DrawnText.EllipsisIsShown | packages/tui/src/agent_tui/utils.py:276-347 | a truncated text shows its longest prefix that leaves room, then the ellipsis, then blanks up to the limit when it is padded |
| DrawnText.MarkerIsStripped | packages/tui/src/agent_tui/tui.py:756-803 | the first marker of a line is taken out and nothing else, and its column is the width in front of it |
| DrawnText.LowestMarkerIsReported | packages/tui/src/agent_tui/tui.py:756-803 | the reported row is the lowest of the viewport that has a marker; none is reported if and only if no row of the viewport has one |
| Renderer.PrintLines | packages/tui/src/agent_tui/tui.py:536-546 | all lines printed from the top of the screen cover what was there, scrolled exactly by what does not fit |
| Renderer.TUI.DrawAll | packages/tui/src/agent_tui/tui.py:536-583 | the first and the full frame: a blank terminal ends up in step with all lines, and any other has them printed over it |
| Renderer.TUI.FullRender | packages/tui/src/agent_tui/tui.py:536-557 | clearing the screen and the scrollback first makes the full frame independent of what was shown |
| Renderer.TUI.WriteDeletedLines | packages/tui/src/agent_tui/tui.py:849-891 | the tail of a shrunken frame is blanked if and only if it can be reached from the viewport; otherwise nothing is written |
| Renderer.TailErased | packages/tui/src/agent_tui/tui.py:849-891 | blanking the old tail is all that a shorter frame has to rewrite |
| Renderer.TUI.PositionHardwareCursor | packages/tui/src/agent_tui/tui.py:805-847 | only the cursor moves, to the marker when there is one, and its row stays known if it was |
| Renderer.TUI.ForceRender | packages/tui/src/agent_tui/tui.py:339-378 | the next frame will find its size changed |
| Renderer.TUI.Start | packages/tui/src/agent_tui/tui.py:306-318 | a started renderer draws its first frame from a cleared screen |
| Renderer.TUI.Stop | packages/tui/src/agent_tui/tui.py:320-337 | the cursor is left at the start of a row below everything drawn, and what was drawn stays |
| Renderer.TUI.TerminalResized | packages/tui/src/agent_tui/tui.py:483-497 | a terminal of another size, or of the same size again, may show anything, and the renderer stays valid on it |
| Renderer.TUI.constructor | packages/tui/src/agent_tui/tui.py:219-253 | a new renderer is stopped and valid on any terminal, and nothing has been written |
| Tui.MoveReaches | packages/tui/src/agent_tui/tui.py:500-504 | a relative move goes as far as the screen does, and between two of its rows is never clamped |
| Tui.Rewrite | packages/tui/src/agent_tui/tui.py:689-693 | clearing a row and printing a line that fits replaces that row and nothing else |
| Tui.DrawnFits | packages/tui/src/agent_tui/tui.py:524-533 | a drawn line is never wider than the frame and never empty |
| Tui.CursorInViewport | packages/tui/src/agent_tui/tui.py:756-803 | a reported marker lies inside the viewport |
| Terminal.PrintFits | packages/tui/src/agent_tui/tui.py:472-482 | on the terminal machine a line that fits its usable columns stays on its row |
| Terminal.StaysOnRow | packages/tui/src/agent_tui/tui.py:472-482 | on the terminal machine a line from the first column stays on its row if and only if it fits the usable columns |
| Terminal.WritesConcat | packages/tui/src/agent_tui/tui.py:535-557 | output written in two parts takes the terminal where both together take it |
| Text.MeasuredRight | packages/tui/src/agent_tui/utils.py:228-244 | with tab stops every eight columns the measured width is where the cursor is, all along a line, if and only if every tab starts three columns before a stop |
| Layout.TruncateToWidth | packages/tui/src/agent_tui/utils.py:276-334 | the loop over items computes the specified truncation |
| Layout.KeptIsLongestPrefix | packages/tui/src/agent_tui/utils.py:294-334 | what is kept is the longest prefix that fits the target, up to escapes behind the last kept column |
| Layout.TruncationBounds | packages/tui/src/agent_tui/utils.py:276-347 | the result never exceeds the limit when the ellipsis fits, padding makes it exact, and a cut text ends in a reset |
| Layout.FinalizedWidth | packages/tui/src/agent_tui/utils.py:337-347 | width of a finished truncation, padded or not |
| Layout.FitLineToWidth | packages/tui/src/agent_tui/tui.py:123-139 | a rendered line is clipped to the width, a table row keeping its closing border |
| Layout.FitNeverWraps | packages/tui/src/agent_tui/tui.py:123-139 | no clipped line is wider than the frame |
| Layout.ClosedRowWidth | packages/tui/src/agent_tui/tui.py:130-139 | a clipped table row fills the width exactly and ends in its closing border |
| Layout.SplitIntoTokens | packages/tui/src/agent_tui/utils.py:462-485 | the longest runs of spaces and of other text, in order, with nothing lost |
| Layout.BreakLongWord | packages/tui/src/agent_tui/utils.py:488-506 | chunks that make up the word and fit the width when its glyphs do; every chunk but the last is closed by a reset, and the next glyph would have made it too wide |
| Layout.WrapSingleLine | packages/tui/src/agent_tui/utils.py:418-459 | only spaces are dropped and only resets added; every line fits if and only if the text fits or each of its glyphs does; a word that fits on a line stands whole on one; and every line but the last ends because the next token, or the next glyph of a word too long for any line, did not fit |
| Ansi.ExtractAnsiCode | packages/tui/src/agent_tui/utils.py:154-198 | the escape at a position, whole, or none |
| Ansi.FindsWholeCodes | packages/tui/src/agent_tui/utils.py:154-198 | an escape of a length is found if and only if the grammar has one there: CSI up to its first final byte, OSC and APC up to the first terminator |
| Ansi.StripAnsi | packages/tui/src/agent_tui/utils.py:201-218 | what is left is the text without its escapes, and it is free of ESC if and only if every escape in the text was whole |
| Ansi.PiecesSpell | packages/tui/src/agent_tui/utils.py:201-218 | cutting text into escapes and characters loses nothing |
| Ansi.PiecesConcat | packages/tui/src/agent_tui/utils.py:201-218 | text in which no escape is left open can be joined with any other text piece by piece |
| Ansi.StripConcat | packages/tui/src/agent_tui/utils.py:228-259 | stripping is additive in front of every text if and only if no escape is left open |
| Ansi.OpenTakesMore | packages/tui/src/agent_tui/utils.py:154-218 | for every text with an open escape there is a text behind it of which part is taken in |
| Ansi.StripIdempotent | packages/tui/src/agent_tui/utils.py:201-218 | stripping twice is stripping once if and only if no left-over ESC starts an escape once the escapes behind it are gone |
| Ansi.NothingStripped | packages/tui/src/agent_tui/utils.py:201-218 | stripping leaves a text alone if and only if no escape starts anywhere in it |
| Ansi.OpenEscapeTakesReset | packages/tui/src/agent_tui/utils.py:154-172 | a concrete open escape that takes in the reset behind it |
| Ansi.StrippingCanMakeAnEscape | packages/tui/src/agent_tui/utils.py:201-218 | a concrete text from which stripping leaves an escape that was not there |
| PlanMode.ReducePlanState | packages/app/src/coding_agent/core/plan_mode.py:430-865 | the loop computes the fold of the entries |
| PlanMode.ReplayItems | packages/app/src/coding_agent/core/plan_mode.py:388-418 | sorted by line, damaged lines go before the first later entry, and before the first entry that was not read from the file |
| PlanReplay.MergeKeepsAll | packages/app/src/coding_agent/core/plan_mode.py:388-418 | the entries of the merge are the entries and its diagnostics the diagnostics, each in their order, and there is nothing else |
| PlanReplay.MergePlaces | packages/app/src/coding_agent/core/plan_mode.py:388-418 | a diagnostic stands before an entry if and only if that entry or one before it stands behind the damaged line, or was not read from the file |
| PlanReplay.MergeEnds | packages/app/src/coding_agent/core/plan_mode.py:388-418 | the merge ends in a diagnostic if and only if the last one stands behind every entry |
| PlanReplay.LineOrderKeeps | packages/app/src/coding_agent/core/plan_mode.py:393-404 | sorting keeps every diagnostic, and those of one line in their order |
| PlanReplay.TornLineIsNoticed | packages/app/src/coding_agent/core/plan_mode.py:388-418 | a log with a damaged line behind its last entry replays to an error, whatever state it was in |
| PlanProofs.StepHasFacts | packages/app/src/coding_agent/core/plan_mode.py:461-863 | every item, of any log, keeps the state well formed, records the ids it uses, and changes only what its kind may change |
| PlanProofs.StartedIsAuthorised | packages/app/src/coding_agent/core/plan_mode.py:797-831 | an accepted start confirms an accepted revision before it: same plan, number and digest, sound, the latest, and no message of the user, mode change or error lies between |
| PlanSources.StartedRunsTheSubmittedText | packages/app/src/coding_agent/core/plan_mode.py:703-831 | an accepted start of a submitted plan is for the text of the message right before the revision: title, normalised markdown and digest agree, within their bounds |
| PlanSources.SubmissionHasSource | packages/app/src/coding_agent/core/plan_mode.py:713-745 | right before an accepted submission stands the complete assistant message whose only tool call submits exactly it |
| PlanSources.CopyComesFromParent | packages/app/src/coding_agent/core/plan_mode.py:677-722 | a revision of another session is accepted only first in its episode, and only from the session this one was handed off from |
| PlanSources.QuestionIsWellFormed | packages/app/src/coding_agent/core/plan_mode.py:608-655 | an accepted question is asked while drafting, is within its bounds and has two or three options |
| PlanSources.AnswerIsForTheQuestion | packages/app/src/coding_agent/core/plan_mode.py:656-673 | an accepted answer is for the question asked last, of the same plan, which nothing has answered before |
| PlanProofs.IdsUsedOnce | packages/app/src/coding_agent/core/plan_mode.py:451-865 | plan ids, run ids, question ids of a plan and tool calls of v1 submissions are each accepted at most once |
| PlanProofs.RevisionNumbersRise | packages/app/src/coding_agent/core/plan_mode.py:685-701 | revision numbers of an episode rise by exactly one; the first is 1, or the number handed over |
| PlanProofs.OneEndPerRun | packages/app/src/coding_agent/core/plan_mode.py:833-863 | between two accepted ends there is an accepted start |
| PlanProofs.ErrorStands | packages/app/src/coding_agent/core/plan_mode.py:473-490 | only an exit entry for the active episode removes a standing error |
| PlanProofs.NothingRunsAfterError | packages/app/src/coding_agent/core/plan_mode.py:473-490 | after an error nothing starts until a new episode has been entered |
| PlanProofs.ReadySince | packages/app/src/coding_agent/core/plan_mode.py:495-497 | a ready plan has been left alone since its revision was accepted |
| PlanProofs.RestartShowsTheSame | packages/app/src/coding_agent/core/plan_mode.py:821-831 | replaying any prefix of a clean log without owning a run gives no error and the same state, with executing turned into uncertain |
| PlanProofs.UnknownRunChangesNothing | packages/app/src/coding_agent/core/plan_mode.py:826-830 | owning a run the log does not contain changes nothing |
| PlanSources.NormalizeAt | packages/app/src/coding_agent/core/plan_mode.py:224-226 | a CRLF anywhere becomes a line feed, and the texts on both sides are normalised on their own |
| PlanProofs.NormalizeFixes | packages/app/src/coding_agent/core/plan_mode.py:224-226 | a text is its own normal form if and only if it has no CRLF |
| PlanProofs.NormalizeIdempotent | packages/app/src/coding_agent/core/plan_mode.py:224-226 | normalising twice equals normalising once if and only if the text has no two carriage returns before a line feed |
| PlanSession.PlanSession.constructor | packages/app/src/coding_agent/core/agent_session.py:800-817 | opening a stored log replays it |
| PlanSession.PlanSession.Append | packages/app/src/coding_agent/core/agent_session.py:800-817 | appending an entry is one step of the reducer, and keeps replay, restart and cleanness in agreement |
| PlanSession.PlanSession.EnterPlanMode | packages/app/src/coding_agent/core/agent_session.py:819-837 | exactly when it is allowed: the exit of a failed episode, if there is one, and the entry of the new one are appended, the log is clean and the session drafts a new plan |
| PlanSession.PlanSession.CancelPlanMode | packages/app/src/coding_agent/core/agent_session.py:839-867 | exactly when it is allowed the exit entry is appended, and the plan goes to the intended phase; a waiting question is cancelled |
| PlanSession.PlanSession.RequestPlanQuestion | packages/app/src/coding_agent/core/agent_session.py:869-914 | exactly while drafting the question is appended; the plan then awaits this answer, unless the reducer rejects a reused id or a wrong form, which leaves the session in an error |
| PlanSession.PlanSession.AnswerPlanQuestion | packages/app/src/coding_agent/core/agent_session.py:916-951 | exactly for the pending question and an answer with text: the stripped answer is appended, and the plan is drafting again |
| PlanSession.PlanSession.AppendMessage | packages/app/src/coding_agent/core/plan_mode.py:492-507 | a message keeps the log clean; one of the user turns a ready plan into a draft again |
| PlanSession.ValidateSubmitSource | packages/app/src/coding_agent/core/agent_session.py:999-1058 | accepts if and only if the newest entry is a complete assistant message whose only tool call is this submission with these arguments, and no earlier message has used the call |
| PlanSession.PlanSession.SubmitPlan | packages/app/src/coding_agent/core/agent_session.py:953-997 | a revision is written if and only if the plan is drafting, the newest entry is the message that asks for it and the text is within its bounds; then it is the next revision of the active plan, ready exactly when the tool call id is a valid token and the markdown has no two carriage returns before a line feed, and otherwise the session is left in an error; else nothing changes |
| PlanSession.SubmitStep | packages/app/src/coding_agent/core/plan_mode.py:703-794 | the reducer accepts a guarded submission under exactly that condition |
| PlanSession.AcceptedThenRejected | packages/app/src/coding_agent/core/plan_mode.py:752-794 | a concrete submission that passes the guards and is then rejected |
| PlanSession.QuestionStep | packages/app/src/coding_agent/core/plan_mode.py:608-655 | a question is accepted if and only if its id is new in the episode and its form is right |
| PlanSession.StartRejected | packages/app/src/coding_agent/core/plan_mode.py:797-831 | a start whose run id was used before, or is no valid token where the revision is not a legacy one, is rejected |
| PlanSession.PlanSession.StartPlanRun | packages/app/src/coding_agent/core/agent_session.py:1060-1129 | a start is written if and only if nothing is running and the request names the exact latest revision of a ready plan; the run is owned if and only if the entry can be flushed, and with an id the reducer takes it is executing then and uncertain otherwise; an id it rejects leaves an error |
| PlanSession.PlanSession.FinishPlanRun | packages/app/src/coding_agent/core/agent_session.py:1216-1242 | live ownership ends in any case: with the entry the run ends in the phase of its status, and when the entry cannot be appended the plan is uncertain |
| PlanSession.PlanSession.HandoffPlanToNewSession | packages/app/src/coding_agent/core/agent_session.py:1131-1214 | the child is ready with the exact revision and can never hand it off again; the source is cancelled |
| PlanSession.ChildIsReady | packages/app/src/coding_agent/core/agent_session.py:1131-1214 | the child log replays cleanly to the handed revision |
| PlanSession.HandoffNeverLosesThePlan | packages/app/src/coding_agent/core/agent_session.py:1131-1214 | at every crash point between the writes the source or the child is ready with the plan |
| PlanSession.ExitStep | packages/app/src/coding_agent/core/plan_mode.py:567-600 | the user can leave an episode, an uncertain run or an error from any reachable state |
| AgentRun.Prompt | packages/core/src/agent_core/agent.py:203-223 | a whole prompt, for any model, tools, hooks and queue traffic: a second prompt is refused; the events of the run are those of its turns, in order, between its start and its end; the agent transcript is the old one and what the fold of these events adds, which is the prompts and the recorded turns; every turn begins once and ends once, unless the prompt is cancelled while the model answers; what each queue received is what was injected, in order and once, then what is discarded; a run that ends by itself discards nothing and has no tool turn left to answer; a run cut off by its script has taken every turn of it |
| AgentRun.RunLoop | packages/core/src/agent_core/agent_loop.py:165-255 | the nested loops: events and transcripts are those of the recorded turns, and the loop ends for the reason the last turn gives |
| AgentRun.OuterLoop | packages/core/src/agent_core/agent_loop.py:177-253 | follow-ups start the inner loop again; events and transcripts stay those of the recorded turns |
| AgentRun.InnerLoop | packages/core/src/agent_core/agent_loop.py:179-245 | tool turns and steering, until neither is left; events and transcripts stay those of the recorded turns |
| AgentRun.RunTurn | packages/core/src/agent_core/agent_loop.py:180-241 | one turn sends exactly its start, a pair for each injected message and for the reply, the starts and ends of its batch - complete unless a hook breaks it off - and its end with the results; both transcripts grow by the fold of these events; it stops the loop exactly on an error, an abort, or a batch whose results all say so |
| AgentRecord.EveryTurn | packages/core/src/agent_core/agent_loop.py:233-233 | at the end of every turn of a run agent and loop hold the same transcript: the start, the prompts and all that was said so far; no earlier turn stopped the loop |
| AgentRecord.EveryTurnEnd | packages/core/src/agent_core/agent_loop.py:180-233 | for every prefix of the events of a run that ends in a turn end, the transcript rebuilt from it is the loop transcript at that moment |
| AgentRecord.EventsAdd | packages/core/src/agent_core/agent.py:357-412 | the fold of the events of any turns is the prompts and what was said in those turns |
| AgentRecord.ResultsFollowTheirMessage | packages/core/src/agent_core/agent_loop.py:217-231 | the results of a turn stand contiguously behind their message, one for each call, in source order |
| AgentRun.PollSteering | packages/core/src/agent_core/agent_loop.py:244-244 | the poll after a turn: nothing pending means that the steering queue is empty |
| AgentRun.PollFollowUps | packages/core/src/agent_core/agent_loop.py:247-253 | follow-ups are taken only behind a turn without tool calls when no steering message waits |
| AgentRun.BeginRun | packages/core/src/agent_core/agent_loop.py:94-109 | the prompts reach both transcripts before the loop starts |
| AgentRun.FinishRun | packages/core/src/agent_core/agent.py:346-355 | what is left in the queues is discarded, and the agent is idle |
| AgentRun.HandleRunFailure | packages/core/src/agent_core/agent.py:330-344 | an exception adds one error message to the transcript and ends the turn it broke off |
| AgentRun.Settle | packages/core/src/agent_core/agent.py:312-355 | a run that is over has ended every turn it began, and what it was sent is injected or discarded |
| AgentTools.ExecuteSequential | packages/core/src/agent_core/agent_loop.py:493-529 | each call is started and ended once, in source order, with its outcome |
| AgentTools.ExecuteParallel | packages/core/src/agent_core/agent_loop.py:532-573 | in any completion order each call is started once in source order and ended once after its start with its outcome, and the results stand in source order |
| AgentTools.ExecuteToolCalls | packages/core/src/agent_core/agent_loop.py:464-490 | both strategies give the same results; a batch breaks off exactly when the hook raises for a tool that is not known, leaving a call without its end |
| AgentTools.SecondPhase | packages/core/src/agent_core/agent_loop.py:558-573 | whichever waiting call finishes next, every started call has either ended or is waiting, and not both |
| AgentTools.NothingWaits | packages/core/src/agent_core/agent_loop.py:567-573 | once no call waits the batch is complete and every slot holds its outcome |
| AgentTools.FirstEscape | packages/core/src/agent_core/agent_loop.py:622-640 | an exception of the hook for an unknown tool leaves that call started and not ended |
| AgentOutcomes.RunSaysResult | packages/core/src/agent_core/agent_loop.py:698-763 | a call that is run is answered with the content and the status its tool returns, or with what it raises, or as aborted |
| AgentOutcomes.HookSaysMore | packages/core/src/agent_core/agent_loop.py:766-814 | a hook behind the tool replaces exactly the fields it sets, and the status with the error flag; one that raises leaves its own error |
| AgentOutcomes.RefusalsSayWhy | packages/core/src/agent_core/agent_loop.py:603-695 | aborted, blocked, unknown, badly called and raising calls are each answered with their own error text and status |
| AgentOutcomes.RefusedOrRun | packages/core/src/agent_core/agent_loop.py:603-695 | these, the calls that are run, and those of an unknown tool whose hook raises are all calls |
| AgentOutcomes.BatchAnswers | packages/core/src/agent_core/agent_loop.py:863-878 | the result messages of a batch are these answers, in source order |
| AgentOutcomes.RepliesDecide | packages/core/src/agent_core/agent_loop.py:185-231 | a reply that is an error or was aborted is the last of its run and has no results; any other that is finished has one result for each of its calls |
| AgentTools.ErrorAsksToStop | packages/core/src/agent_core/agent_loop.py:756-814 | a call ends in an error result that asks to stop if and only if its tool returns one or its hook makes one of the result |
| AgentTools.ErrorBatchTerminates | packages/core/src/agent_core/agent_loop.py:881-889 | a batch with an error result terminates if and only if every call of it asks to stop |
| AgentTools.FailedToolTerminates | packages/core/src/agent_core/agent_loop.py:881-889 | a concrete batch: one tool returns a failed result with the flag set, without any hook |
| Agent.Agent.ProcessEvents | packages/core/src/agent_core/agent.py:357-412 | what each event adds to the agent transcript and does to the pending calls, the streaming message and the acceptance of messages |
| Agent.PendingMessageQueue.Drain | packages/core/src/agent_core/agent.py:55-64 | first in first out in both modes; nothing comes out only of an empty queue |
| Agent.PendingMessageQueue.Enqueue | packages/core/src/agent_core/agent.py:49-50 | a message goes to the end |
| Agent.PendingMessageQueue.Clear | packages/core/src/agent_core/agent.py:66-67 | everything is discarded |
| Timeline.ReduceRuntimeEventBatch | apps/desktop/src/renderer/timeline/timelineState.ts:291-726 | one pass over the events and one write per collected item compute the specified reduction |
| TimelineMeaning.MessageIsWhatWasSent | apps/desktop/src/renderer/timeline/timelineState.ts:445-541 | from its start on a message shows its text deltas and its thinking deltas, each joined in order, whatever else happens; after its end it shows the text, thinking, images, files and stop reason of the end, or is gone when the end says nothing |
| TimelineMeaning.MessageInFrames | apps/desktop/src/renderer/timeline/timelineState.ts:445-541 | the same for a protocol-ordered stream however it is cut into frames |
| TimelineMeaning.ToolIsWhatItsEventsSay | apps/desktop/src/renderer/timeline/timelineState.ts:543-613 | from its start to its end a tool shows the call of its start, and then the result of its end with the status that its outcome or its error flag names |
| TimelineMeaning.UpdateIsShown | apps/desktop/src/renderer/timeline/timelineState.ts:579-592 | a partial result is shown if and only if the tool is active |
| TimelineMeaning.ApprovalIsShown | apps/desktop/src/renderer/timeline/timelineState.ts:615-656 | a requested approval shows its tool waiting with its arguments, and an expired one timed out |
| TimelineMeaning.PromptIsShown | apps/desktop/src/renderer/timeline/timelineState.ts:394-418 | the prompt of a run is shown as the message of the user |
| TimelineMeaning.CompactionIsShown | apps/desktop/src/renderer/timeline/timelineState.ts:658-709 | a compaction is shown running and then as it ended |
| TimelineProofs.BatchedStepIsExact | apps/desktop/src/renderer/timeline/timelineState.ts:382-726 | one more event in a frame and a flush equals a flush and the event on its own if and only if the event does not meet what it would disturb |
| TimelineProofs.CommuteMessageStart | apps/desktop/src/renderer/timeline/timelineState.ts:445-479 | a message that starts again meets its own deltas exactly as it would without batching |
| TimelineProofs.CommuteRunEnded | apps/desktop/src/renderer/timeline/timelineState.ts:419-443 | a run end commutes with what is collected unless it would keep an update of one of its tools |
| TimelineRuns.FramesAreExact | apps/desktop/src/renderer/timeline/timelineState.ts:280-726 | for every split of a protocol-ordered stream into frames, reducing frame by frame equals reducing event by event |
| TimelineRuns.FrameIsExact | apps/desktop/src/renderer/timeline/timelineState.ts:291-726 | a frame whose events meet nothing they disturb equals its events one by one |
| TimelineRuns.ProtocolCommutes | apps/desktop/src/renderer/timeline/timelineState.ts:543-656 | protocol order keeps every event away from what it would disturb |
| TimelineRuns.CollectedUpdateWins | apps/desktop/src/renderer/timeline/timelineState.ts:615-638 | an approval request that meets a collected update of its tool is lost behind it |
| TimelineRuns.UpdateThenApprovalDiffers | apps/desktop/src/renderer/timeline/timelineState.ts:579-638 | a concrete frame out of protocol order that differs from its events one by one |
| TimelineRuns.FramesKeepOrder | apps/desktop/src/renderer/timeline/timelineState.ts:310-330 | in every timeline reached by reducing frames of any events, in or out of protocol order, the list shown has each item once, it lists exactly the items there are, and live items come in rising order |
| TimelineRuns.StreamKeepsOrder | apps/desktop/src/renderer/timeline/timelineState.ts:310-330 | the same event by event, with what is collected well formed |
| TimelineRuns.ReduceListed | apps/desktop/src/renderer/timeline/timelineState.ts:310-330 | the same listing holds after any frame |
| TimelineRuns.StepCollecting | apps/desktop/src/renderer/timeline/timelineState.ts:331-362 | a frame in progress collects deltas only for messages that exist and updates only for active tools |
| TimelineRuns.RunEndQuiesces | apps/desktop/src/renderer/timeline/timelineState.ts:419-443 | a run end leaves none of its tools active |
| TimelineRuns.EndedRunStaysQuiet | apps/desktop/src/renderer/timeline/timelineState.ts:419-443 | and none is active again unless an event opens one for the run, event by event |
| TimelineRuns.EndedRunStaysQuietInFrames | apps/desktop/src/renderer/timeline/timelineState.ts:419-443 | the same for a protocol-ordered stream however it is cut into frames |
| TimelineRuns.CreateTimelineState | apps/desktop/src/renderer/timeline/timelineState.ts:107-131 | stored items in the order in which their ids first appear, numbered so that live items come behind |
| TimelineRuns.LastWins | apps/desktop/src/renderer/timeline/timelineState.ts:113-119 | the last of two stored items with one id wins |
| Gif.PreflightGif | packages/llm/src/agent_llm/image_utils.py:82-145 | bytes with a GIF signature are accepted if and only if they are a header, an optional colour table, blocks, a trailer and any tail, within the budget |
| ImageHeaders.GifIsAccepted | packages/llm/src/agent_llm/image_utils.py:106-145 | a GIF written out from its sizes is accepted if and only if the declared canvas is within the limits, and so are 64 frames, the canvas grown to cover them, and all frames taken as large as the canvas is by then |
| ImageHeaders.GifBytes | packages/llm/src/agent_llm/image_utils.py:113-145 | the markers and the sub-blocks, byte by byte |
| ImageHeaders.TableSizes | packages/llm/src/agent_llm/image_utils.py:110-112 | the eight sizes of a colour table, and when there is one |
| ImageHeaders.LittleBytes | packages/llm/src/agent_llm/image_utils.py:108-109 | numbers are little-endian |
| Gif.SkipSubblocks | packages/llm/src/agent_llm/image_utils.py:95-104 | the end of the sub-blocks at a position, or the error for a truncated image |
| Gif.ReadFrame | packages/llm/src/agent_llm/image_utils.py:126-145 | a frame is checked against the grown canvas and the budget before its data is skipped |
| Gif.ScanBlocks | packages/llm/src/agent_llm/image_utils.py:113-145 | the loop over blocks ends for every input, in the specified verdict |
| Gif.GifIsAcceptedWithinBudget | packages/llm/src/agent_llm/image_utils.py:106-145 | any encoded GIF is accepted if and only if it is within the budget |
| Gif.ScansBlocks | packages/llm/src/agent_llm/image_utils.py:71-79 | checking the budget at every frame is as good as checking it once at the end |
| Gif.AcceptedIsGif | packages/llm/src/agent_llm/image_utils.py:106-145 | whatever is accepted is the encoding of some GIF |
| Gif.TallyCovers | packages/llm/src/agent_llm/image_utils.py:135-139 | the running canvas covers every frame |
| Gif.AcceptedIsBounded | packages/llm/src/agent_llm/image_utils.py:71-79 | an accepted GIF has at most 64 frames inside 8192 by 8192, and at most 16,000,000 pixels in its frames |
| Webp.PreflightWebp | packages/llm/src/agent_llm/image_utils.py:148-209 | bytes with a WebP signature are accepted if and only if proper padded chunks tile the RIFF body exactly |
| ImageHeaders.LossyFile | packages/llm/src/agent_llm/image_utils.py:196-201 | a file with one lossy image, written out byte by byte, is accepted if and only if both sides and their product are within the limits |
| ImageHeaders.LosslessFile | packages/llm/src/agent_llm/image_utils.py:202-208 | and so is one with a lossless image |
| ImageHeaders.AnimationIsAccepted | packages/llm/src/agent_llm/image_utils.py:178-195 | an animation written out from its sizes is accepted if and only if its canvas is within the limits, so are 64 frames and the canvas taken once for each, and every frame lies inside |
| ImageHeaders.ImagesAreBounded | packages/llm/src/agent_llm/image_utils.py:196-208 | every lossy or lossless image of an accepted file is within the limits |
| Webp.ReadChunk | packages/llm/src/agent_llm/image_utils.py:166-177 | a chunk and its padding lie inside the body |
| Webp.AdmitsOpener | packages/llm/src/agent_llm/image_utils.py:176-208 | the first chunk is let through if and only if it may open a body |
| Webp.AdmitsFollower | packages/llm/src/agent_llm/image_utils.py:176-208 | any later chunk is let through if and only if it may follow and its frame keeps the animation within the budget |
| Webp.EncodedIsAcceptedWhenProper | packages/llm/src/agent_llm/image_utils.py:148-209 | any encoded chunk list is accepted if and only if it is proper |
| Webp.ScansFollowers | packages/llm/src/agent_llm/image_utils.py:184-189 | the animation budget checked at every frame is the budget of all frames |
| Webp.AcceptedIsEncoded | packages/llm/src/agent_llm/image_utils.py:161-178 | whatever is accepted is the encoding of some chunk list and a tail |
| Webp.AcceptedIsBounded | packages/llm/src/agent_llm/image_utils.py:184-195 | an accepted animation has at most 64 frames and at most 16,000,000 pixels in them |
| EventStreams.EventStream.Push | packages/llm/src/agent_llm/event_stream.py:74-88 | a push to an open stream adds to what is sent, and the first terminal event closes it and fixes the result |
| EventStreams.EventStream.End | packages/llm/src/agent_llm/event_stream.py:90-100 | an end closes the stream, and sets the result only where there is none |
| EventStreams.EventStream.Resume | packages/llm/src/agent_llm/event_stream.py:107-115 | whenever more has been sent than taken the consumer gets the next event, in order; otherwise it has finished if the stream is closed, and waits if it is open |
| EventStreams.EventStream.Drain | packages/llm/src/agent_llm/event_stream.py:107-115 | a closed stream is drained to everything that was sent, and then ends |
| EventStreams.Interleave | packages/llm/src/agent_llm/event_stream.py:74-115 | for every interleaving of producer and consumer: stream and consumer are at every moment where the pure play of the actions puts them, what the consumer has received is the oldest part of what was sent, and after the drain it is all of it |
| EventStreams.NeverAhead | packages/llm/src/agent_llm/event_stream.py:102-115 | in every run a consumer has taken no more than was sent, and has finished only when the stream was closed and all was taken |
| EventStreams.ResumedOften | packages/llm/src/agent_llm/event_stream.py:102-115 | from any moment on, a consumer that is resumed often enough has taken everything sent |
| EventStreams.FirstTerminalFixesResult | packages/llm/src/agent_llm/event_stream.py:74-100 | no later call changes a result fixed by a terminal event |
| EventStreams.ResultComesFromSomewhere | packages/llm/src/agent_llm/event_stream.py:74-124 | there is a result if and only if a terminal event closed the stream or some end brought one |
| EventStreams.LazyStream | packages/llm/src/agent_llm/event_stream.py:181-211 | the consumer of a lazy stream gets the inner events up to the first terminal one, or all and an error event when the inner source raises before it |
| EventStreams.DriverResult | packages/llm/src/agent_llm/event_stream.py:195-206 | a lazy stream has no result if and only if its source ends by itself without a terminal event |
| EventStreams.Close | packages/llm/src/agent_llm/event_stream.py:138-142 | closing an open stream ends it with an aborted error event |
| Replay.Interleave | apps/desktop/src/renderer/workbench/nativePanels.tsx:25-60 | for every interleaving of output, open reply and events, panel and host go through exactly what the actions say; the panel is open if and only if the reply has been answered and delivered; and then, once all events have arrived, it shows the last 262,144 units before the snapshot and everything behind it, without gap or repetition |
| Replay.Act | apps/desktop/src/renderer/workbench/nativePanels.tsx:28-60 | each action does what it says to the panel and to what is under way, and one that cannot happen yet does nothing |
| Replay.PlayInStep | apps/desktop/src/renderer/workbench/nativePanels.tsx:25-60 | in every run the panel is in step with all that the process has written |
| Replay.OpenWhenReplied | apps/desktop/src/renderer/workbench/nativePanels.tsx:47-60 | the panel is open if and only if the host has answered and the reply has arrived since |
| Replay.TerminalPanel.Output | apps/desktop/src/renderer/workbench/nativePanels.tsx:28-36 | events are kept until the reply, then written as far as they are new |
| Replay.TerminalPanel.Opened | apps/desktop/src/renderer/workbench/nativePanels.tsx:57-60 | the reply writes the backlog and replays what was kept |
| Replay.AcceptAllShows | apps/desktop/src/renderer/workbench/nativePanels.tsx:31-35 | a gapless run of events that starts no later than the snapshot completes its text |
| Replay.LateEventsAreHarmless | apps/desktop/src/renderer/workbench/nativePanels.tsx:29-60 | late events of an earlier terminal under the key, anywhere among the own events, leave no trace at any moment if and only if none is ahead of the own events when it arrives; and then the text is right |
| Replay.PanelAcceptsAll | apps/desktop/src/renderer/workbench/nativePanels.tsx:25-60 | wherever between the events the reply comes, the text is what all of them make of the snapshot |
| Replay.LateTextMayCoincide | apps/desktop/src/renderer/workbench/nativePanels.tsx:29-35 | a concrete late event that is ahead and happens to carry the text that was to come |
| Replay.LateEventAheadBreaks | apps/desktop/src/renderer/workbench/nativePanels.tsx:29-35 | a late event that is ahead shows foreign text and hides the terminal own output |
| Replay.Receive | apps/desktop/src/main/workbench.ts:109-113 | the backlog stays the last 262,144 units of the output and the offset its length |
| Replay.Requests | apps/desktop/src/main/workbench.ts:54-119 | over any interleaving of requests and callbacks the host goes through exactly what the steps say and answers each accordingly; there are at most six terminals, with distinct keys, all in the current scope, with right backlogs |
| Replay.HostDoOrderly | apps/desktop/src/main/workbench.ts:54-119 | every step keeps the terminals few, distinct, in scope and with right backlogs |
| Replay.OpenedIsTheTerminal | apps/desktop/src/main/workbench.ts:90-119 | a request that is answered with a terminal gets the one terminal of its key, in the scope it was made for, with the end of what its process has written |
| Replay.NativeWorkbench.Take | apps/desktop/src/main/workbench.ts:54-119 | any one step does to the host, and answers, what the step says |
| Replay.NativeWorkbench.CheckedScope | apps/desktop/src/main/workbench.ts:64-70 | a request overtaken by a change to another scope is refused and changes nothing |
| Replay.CrossingRequestsPass | apps/desktop/src/main/workbench.ts:64-70 | a request crossed only by others of its own scope is refused as stale if and only if it was made for another scope than the backend names |
| Replay.OvertakenIsRefused | apps/desktop/src/main/workbench.ts:64-70 | a request another scope has overtaken is refused and changes nothing |
| Replay.NativeWorkbench.OpenTerminal | apps/desktop/src/main/workbench.ts:90-96 | an open request is refused, answered with the terminal of its key, or may spawn, each under its condition |
| Replay.NativeWorkbench.SpawnTerminal | apps/desktop/src/main/workbench.ts:97-119 | after the import everything is checked again, so crossing requests share one terminal |
| Replay.NativeWorkbench.OnData | apps/desktop/src/main/workbench.ts:109-113 | output changes only its own terminal |
| Replay.NativeWorkbench.CloseTerminal | apps/desktop/src/main/workbench.ts:85-89 | every close is accepted, and exactly one of the terminal own scope has the process stopped |
| Replay.ClosingIsAnswered | apps/desktop/src/main/workbench.ts:85-106 | in any run a request is answered with a terminal that has been asked to close if and only if it is for its key, in its scope, and the process has not stopped |
| Replay.ReopenedWhileClosing | apps/desktop/src/main/workbench.ts:85-96 | a concrete run in which that happens |
| Replay.NativeWorkbench.Dispose | apps/desktop/src/main/workbench.ts:233-243 | no terminal and no scope is left |

## Left out

- Real input and output: console modes, flushing, timers, Electron windows and views, process spawning, file reading and writing. The terminal is a command machine, the session log a sequence; a flush that fails is an input.
- Grapheme tables and East Asian widths: widths are data of the glyphs, additive by assumption and the same after normalisation, and the terminal paints a tab as the three blanks it is measured as; `Text.MeasuredRight` says when real tab stops agree. `Ansi` shows where cutting text into escapes is additive; the width cache is not modelled.
- Layout.WrapSingleLine: wraps text without escapes only, as its long words are broken by `Layout.BreakLongWord`; `slice_by_column` is left out with it.
- Layout.SplitIntoTokens: takes text without escapes, where no token has a prefix of escapes.
- Layout.BreakLongWord: takes words without escapes, because the source breaks a word between any two characters, those of an escape included.
- A terminal of the same size whose cursor is on another row than the renderer takes it to be on: `Renderer.RewrittenElsewhere` says what the output of a frame that is no shorter does there; the rows a shorter frame blanks are not followed.
- What a terminal shows in the middle of a block of synchronized output, and whether the cursor is visible: the commands for both do nothing on the terminal machine; no method of the renderer leaves such a block open (`Renderer.TUI.DoRender`).
- Details of tool results and of blocked calls beyond their text and status; parsing of diagnostics (their line is at least 1, their code has a default).
- Components, key handling, focus and render throttling: a frame is a function from a width to lines.
- The digest is an uninterpreted function of its five fields; JSON encoding of entries is not modelled.
- The form check of a plan question by its own tool, plan run prompts, policies and events to subscribers.
- Timeline fields that only count or stamp writes (revision, updatedAt, lastSeq), the parsing of payloads, and persisted conversations beyond their items. Item ids are built injectively.
- The cancellation race inside the streaming of one assistant response: an answer is one step with one message end, an exception, or a cancellation without a message; and cancellation while a batch of tools or a hook runs. Partial updates and running events of tools change no transcript and are not emitted.
- A loop that runs for ever: the environment's script is finite, so a run is either over or observed up to the end of its script.
- The refresh of system prompt and tool table between turns, and the saving of messages by a session manager: whether a tool is known is an input of each call.
- Calls to clear the queues, to reset or to load messages during a run, and the status and error message of the last run.
- Terminal input, resizing, process exit and the browser of the workbench; that process ids are fresh random ones is an assumption.
- Validation of images beyond the header scan: Base64, caches, decoding.
- PlanSession.PlanSession.StartPlanRun: of a run id that was used before and whose entry is flushed it says no more of the state than that it is the replay of the log; what such a session does until its run ends is not followed (`PlanSession.PlanSession.FinishPlanRun` takes a session whose run was accepted).
- Agent.Agent.ProcessEvents: leaves out message updates, and the status and the error text of the last run.
- AgentRun.HandleRunFailure: one failure message stands for all, without the aborted stop reason and the text of the error.
- EventStreams.Close: does not cancel a producer task or close child streams, because an open stream is all it has.
- Renderer.TUI.ForceRender: does not say what the terminal shows until the next frame, because nothing is written.
- Gif.ScansBlocks: says which two errors a budget failure can raise, not which frame raises it.
- Retry, memory, compaction, search, prompts, themes, credentials and argument parsing, which would add only easy members or whose other half is elsewhere.
