/**
 * The command dispatcher of `index.js`: a handler either answers with an
 * embed, or throws, and the dispatcher then answers with a fixed failure text
 * (as a follow-up when the handler had already deferred or replied).
 */
module Dispatcher {
  import opened Embeds

  /** What the dispatcher replies when a command throws. */
  const CommandFailedText := "\U{274C} Command failed."

  /** The answer a user sees: the handler's embed, or the failure text after a throw. */
  datatype Answer = Answered(embed: Embed) | CommandFailed
}
