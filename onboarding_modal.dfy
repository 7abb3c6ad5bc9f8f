/**
 * The step machine of components/onboarding-modal.tsx: a three-step wizard
 * whose first step requires a webhook before it lets the user advance.
 */
module OnboardingModal {
  import opened Wrappers
  import opened Strings
  import opened Types
  import opened OnboardingRoute

  const TotalSteps := 3
  const WebhookRequired := "Discord webhook URL is required"
  const SaveFailed := "Failed to save settings"

  /** How the POST of `handleComplete` ended: an answer with its `ok`, or a rejected fetch with its error message. */
  datatype CompletionAnswer = Answered(ok: bool) | Rejected(message: string)

  /** The body `handleComplete` posts: the form's fields, both flags on. */
  function CompletionBody(webhook: string, feedUrl: string, cronSchedule: string): OnboardingBody {
    OnboardingBody(webhook, feedUrl, cronSchedule, Some(true), Some(true))
  }

  /**
   * A webhook that got past step 1 is one the onboarding endpoint accepts, and
   * the endpoint then stores both flags as "true".
   */
  lemma CompletionAccepted(webhook: string, feedUrl: string, cronSchedule: string)
    requires NextStep(1, webhook) == 2
    ensures !MissingWebhook(CompletionBody(webhook, feedUrl, cronSchedule))
    ensures var v := OnboardingValues(CompletionBody(webhook, feedUrl, cronSchedule));
      v["enableNotifications"] == "true" && v["enableScheduler"] == "true"
  {
  }

  /** The step `handleNext` leads to. */
  function NextStep(step: int, webhook: string): int {
    if step == 1 && Trim(webhook) == "" then step
    else if step < TotalSteps then step + 1
    else step
  }

  /** The step `handleBack` leads to. */
  function BackStep(step: int): int {
    if step > 1 then step - 1 else step
  }

  /** Both handlers keep the step within 1..3. */
  lemma StepsStayInRange(step: int, webhook: string)
    requires 1 <= step <= TotalSteps
    ensures 1 <= NextStep(step, webhook) <= TotalSteps
    ensures 1 <= BackStep(step) <= TotalSteps
  {
  }

  /**
   * Next advances by exactly one, except at the last step and at the first step
   * with a blank webhook, where it stays.
   */
  lemma NextSpec(step: int, webhook: string)
    requires 1 <= step <= TotalSteps
    ensures NextStep(step, webhook) == step <==> step == TotalSteps || (step == 1 && AllWhitespace(webhook))
    ensures NextStep(step, webhook) != step ==> NextStep(step, webhook) == step + 1
  {
    TrimEmptyIff(webhook);
  }

  /** Going back after advancing returns to the step one started from. */
  lemma BackUndoesNext(step: int, webhook: string)
    requires 1 <= step <= TotalSteps && NextStep(step, webhook) != step
    ensures BackStep(NextStep(step, webhook)) == step
  {
  }

  /** The wizard's `step`, `error` and webhook input. */
  class OnboardingWizard {
    var step: int
    var error: string
    var discordWebhook: string
    var feedUrl: string
    var cronSchedule: string

    ghost predicate Valid()
      reads this
    {
      1 <= step <= TotalSteps
    }

    /** The initial state: step 1, no error, the default feed and schedule. */
    constructor()
      ensures Valid() && step == 1 && error == "" && discordWebhook == ""
      ensures feedUrl == DefaultFeedUrl && cronSchedule == DefaultCronSchedule
    {
      step := 1;
      error := "";
      discordWebhook := "";
      feedUrl := DefaultFeedUrl;
      cronSchedule := DefaultCronSchedule;
    }

    /** The webhook input's change handler. */
    method SetWebhook(value: string)
      modifies this
      ensures discordWebhook == value
      ensures step == old(step) && error == old(error)
      ensures feedUrl == old(feedUrl) && cronSchedule == old(cronSchedule)
    {
      discordWebhook := value;
    }

    /**
     * `handleNext()`: clears the error; at step 1 with a blank webhook sets the
     * error and stays; otherwise advances unless at the last step.
     */
    method HandleNext()
      requires Valid()
      modifies this
      ensures Valid()
      ensures step == NextStep(old(step), discordWebhook)
      ensures error == (if old(step) == 1 && Trim(discordWebhook) == "" then WebhookRequired else "")
      ensures discordWebhook == old(discordWebhook)
      ensures feedUrl == old(feedUrl) && cronSchedule == old(cronSchedule)
    {
      error := "";
      if step == 1 && Trim(discordWebhook) == "" {
        error := WebhookRequired;
        return;
      }
      if step < TotalSteps {
        step := step + 1;
      }
    }

    /** `handleBack()`: clears the error and goes back unless at step 1. */
    method HandleBack()
      requires Valid()
      modifies this
      ensures Valid()
      ensures step == BackStep(old(step)) && error == ""
      ensures discordWebhook == old(discordWebhook)
      ensures feedUrl == old(feedUrl) && cronSchedule == old(cronSchedule)
    {
      error := "";
      if step > 1 {
        step := step - 1;
      }
    }

    /**
     * `handleComplete()`: posts the form. An ok answer leaves no error; an answer
     * that is not ok shows "Failed to save settings"; a rejected fetch shows the
     * rejection's own message.
     */
    method HandleComplete(answer: CompletionAnswer) returns (body: OnboardingBody)
      modifies this
      ensures body == CompletionBody(discordWebhook, feedUrl, cronSchedule)
      ensures answer == Answered(true) ==> error == ""
      ensures answer == Answered(false) ==> error == SaveFailed
      ensures answer.Rejected? ==> error == answer.message
      ensures step == old(step) && discordWebhook == old(discordWebhook)
      ensures feedUrl == old(feedUrl) && cronSchedule == old(cronSchedule)
    {
      error := "";
      body := CompletionBody(discordWebhook, feedUrl, cronSchedule);
      match answer
      case Answered(ok) =>
        if !ok {
          error := SaveFailed;
        }
      case Rejected(message) =>
        error := message;
    }
  }
}
