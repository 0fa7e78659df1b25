/** The stub task executor and the stub payment handler of agent/services.py.
    The executor is a fixed rule on the input text; the handler runs it for
    one job of a job table and records the result. */
module Services {
  import opened Jobs
  import opened PyText

  const DEFAULT_TEXT := "No text provided"
  const STORY_OPENING := "Once upon a time, there was a "
  const STORY_ENDING :=
    "They lived in a world of wonder and amazement. "
    + "Every day brought new adventures and discoveries. "
    + "And they lived happily ever after."
  const SUMMARY_OPENING := "This is a summary about "
  const SUMMARY_ENDING := "It contains the most important points in a concise format."
  const PLAIN_PREFIX := "Processed result for: "

  /** The text the executor works on: the "text" entry, or the default. */
  function TaskText(inputData: map<string, string>): (t: string)
    ensures "text" in inputData ==> t == inputData["text"]
    ensures "text" !in inputData ==> t == DEFAULT_TEXT
  {
    if "text" in inputData then inputData["text"] else DEFAULT_TEXT
  }

  /** The answer to a text that mentions "story", quoting `word`. */
  function StoryAnswer(word: string): string {
    STORY_OPENING + word + ". " + STORY_ENDING
  }

  /** The answer to a text that mentions "summary", quoting `word`. */
  function SummaryAnswer(word: string): string {
    SUMMARY_OPENING + word + ". " + SUMMARY_ENDING
  }

  /** The canned answer for a text.  "story" is tested before "summary", both
      on the lowered text, and both answers quote the text's last word,
      `text.split()[-1]`. */
  function Respond(text: string): string {
    if Contains(Lower(text), "story") then
      KeywordGivesWord(text, "story");
      StoryAnswer(LastWord(text))
    else if Contains(Lower(text), "summary") then
      KeywordGivesWord(text, "summary");
      SummaryAnswer(LastWord(text))
    else
      PLAIN_PREFIX + text
  }

  /** A text that mentions "story" gets the story answer, quoting the word
      that ends the text once trailing whitespace is dropped. */
  lemma RespondStory(text: string)
    requires Contains(Lower(text), "story")
    ensures Respond(text) == StoryAnswer(TrailingWord(text))
  {
    assert HasWordChar(text) by { KeywordGivesWord(text, "story"); }
    assert LastWord(text) == TrailingWord(text) by { LastWordIsTrailingWord(text); }
    assert Respond(text) == StoryAnswer(LastWord(text));
  }

  /** A text that mentions "summary" but not "story" gets the summary
      answer, quoting the same word. */
  lemma RespondSummary(text: string)
    requires !Contains(Lower(text), "story") && Contains(Lower(text), "summary")
    ensures Respond(text) == SummaryAnswer(TrailingWord(text))
  {
    assert HasWordChar(text) by { KeywordGivesWord(text, "summary"); }
    assert LastWord(text) == TrailingWord(text) by { LastWordIsTrailingWord(text); }
    assert Respond(text) == SummaryAnswer(LastWord(text));
  }

  /** The three answers of `Respond`, with the quoted word read from the
      right.  A keyword in the text guarantees that `split()` has a last
      word, so the quoting never raises IndexError. */
  lemma RespondAnswers(text: string)
    ensures Contains(Lower(text), "story") ==>
      Respond(text) == STORY_OPENING + TrailingWord(text) + ". " + STORY_ENDING
    ensures !Contains(Lower(text), "story") && Contains(Lower(text), "summary") ==>
      Respond(text) == SUMMARY_OPENING + TrailingWord(text) + ". " + SUMMARY_ENDING
    ensures !Contains(Lower(text), "story") && !Contains(Lower(text), "summary") ==>
      Respond(text) == PLAIN_PREFIX + text
  {
    if Contains(Lower(text), "story") {
      RespondStory(text);
    } else if Contains(Lower(text), "summary") {
      RespondSummary(text);
    }
  }

  /** `execute_ai_task`: a dictionary with the single key "raw".  Without a
      "text" entry the answer is the plain answer for the default text. */
  function ExecuteAiTask(inputData: map<string, string>): (r: map<string, string>)
    ensures r.Keys == {"raw"}
    ensures "text" in inputData ==> r["raw"] == Respond(inputData["text"])
    ensures "text" !in inputData ==> r["raw"] == PLAIN_PREFIX + DEFAULT_TEXT
  {
    var text := TaskText(inputData);
    if "text" !in inputData then
      DefaultTextIsPlain();
      map["raw" := Respond(text)]
    else
      map["raw" := Respond(text)]
  }

  /** The default text contains neither keyword: its lowered form has no 's'. */
  lemma DefaultTextIsPlain()
    ensures !Contains(Lower(DEFAULT_TEXT), "story")
    ensures !Contains(Lower(DEFAULT_TEXT), "summary")
  {
    var l := Lower(DEFAULT_TEXT);
    assert l == "no text provided";
    assert forall i :: 0 <= i < |l| ==> l[i] != 's';
    if Contains(l, "story") {
      ContainsFirstChar(l, "story");
      assert false;
    }
    if Contains(l, "summary") {
      ContainsFirstChar(l, "summary");
      assert false;
    }
  }

  /** The dictionary of job records the stub handler is given. */
  class JobTable {
    var jobs: map<JobId, Job<map<string, string>>>

    constructor (initial: map<JobId, Job<map<string, string>>>)
      ensures jobs == initial
    {
      jobs := initial;
    }
  }

  /** `handle_payment_status(job_id, jobs)`.  For a known job it writes
      "running" and payment status "completed", runs the executor on the
      job's input, then writes "completed" and the executor's answer.  The
      stub executor cannot raise, so the handler's except branch is reached
      only when the job is unknown; there the branch's own lookup raises the
      same KeyError again, which leaves the handler with nothing written.
      `written` lists the statuses stored in the record, in order. */
  method HandlePaymentStatus(jobId: JobId, table: JobTable)
    returns (escaped: Option<string>, ghost written: seq<Status>)
    modifies table
    ensures jobId !in old(table.jobs) ==>
      escaped == Some(KeyErrorText(jobId)) && written == [] && table.jobs == old(table.jobs)
    ensures jobId in old(table.jobs) ==>
      var job := old(table.jobs)[jobId];
      && escaped == None
      && written == [Running, Completed]
      && table.jobs == old(table.jobs)[jobId := job.(
           status := Completed,
           paymentStatus := "completed",
           result := Some(ExecuteAiTask(job.inputData)))]
  {
    if jobId !in table.jobs {
      escaped, written := Some(KeyErrorText(jobId)), [];
      return;
    }
    var job := table.jobs[jobId];
    var record := job;
    record := record.(status := Running);
    record := record.(paymentStatus := "completed");
    table.jobs := table.jobs[jobId := record];
    written := [Running];
    var result := ExecuteAiTask(job.inputData);
    record := record.(status := Completed);
    record := record.(result := Some(result));
    assert record == job.(status := Completed, paymentStatus := "completed", result := Some(result));
    table.jobs := table.jobs[jobId := record];
    assert table.jobs == old(table.jobs)[jobId := record];
    written := written + [Completed];
    escaped := None;
  }
}
