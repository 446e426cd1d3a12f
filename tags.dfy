/**
 * The labels the scripts compare with `CompareTag`. The game only routes on
 * these four; every other label (including an untagged object) falls under
 * `Untagged` and is ignored by every handler.
 */
module Tags {
  datatype Tag = Untagged | Player | Enemy | Diamond | Cherry
}
