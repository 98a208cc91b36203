/** The fixed numbers and reply texts of the agent (src/constants.ts). */
module Constants {
  import Decimal

  /** A rejected user is told to wait only while the limiter's consumed-points
      count is below this threshold. */
  const LimitRetryInfo: int := 3

  /** Default cooldown window, in minutes, between two classified requests. */
  const DefaultRequestDelay: nat := 5

  const PredictionFailMessage: string :=
    "Sorry, looks like OpenAI could not identify this."

  /** The onboarding text sent to senders who do not follow the account; the
      cooldown it announces is rendered from `DefaultRequestDelay`. */
  const WelcomeMessage: string :=
    "\nHi there! Thanks for using our app. " + WelcomeTail

  const WelcomeTail: string :=
    "\U{1F389}" + "\n"
    + "Make sure you\U{2019}re following our account to use this service. "
    + "Send us a clip or image, and we\U{2019}ll identify the movie or series for you.\n"
    + "Note: You can make 1 request every " + Decimal.NatToDecimal(DefaultRequestDelay) + " minutes.\n"

  const SpriteNotFoundMessage: string :=
    "Sorry, system couldn't extract any media from this message."

  /** The three fixed replies are pairwise different and none is empty, so a
      reply tells its reader which gate the message stopped at. */
  lemma FixedRepliesDistinct()
    ensures WelcomeMessage != PredictionFailMessage
    ensures WelcomeMessage != SpriteNotFoundMessage
    ensures PredictionFailMessage != SpriteNotFoundMessage
    ensures WelcomeMessage != "" && PredictionFailMessage != "" && SpriteNotFoundMessage != ""
  {
  }
}
