/** Command-line argument shapes of open-here.

    Only the open target matters to the rest of the model: the argument
    parser itself carries no logic. */
module Cli {

  /** What to open: a free-form string (a URL or a file name) that is
      handed to the platform opener exactly as given. */
  datatype OpenTarget = OpenTarget(target: string)
}
