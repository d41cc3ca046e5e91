/** Executable lookup (Web_SearchAgent.py, lines 74-79). `shutil.which` is a
    parameter: a function from a command name to its absolute path on PATH,
    or `None`. */
module Locator {
  import opened Wrappers
  import opened PyBuiltins

  type Which = string -> Option<string>

  /** `_which_windows(cmds)`: the path of the first candidate that `which`
      resolves to a truthy path, or `None` when none does. */
  function WhichWindows(which: Which, cmds: seq<string>): (p: Option<string>)
    ensures p.Some? ==> p.value != ""
    ensures p.None? <==> forall i :: 0 <= i < |cmds| ==> !Truthy(which(cmds[i]))
    ensures p.Some? ==> exists i :: 0 <= i < |cmds| && p == which(cmds[i])
                                    && forall j :: 0 <= j < i ==> !Truthy(which(cmds[j]))
  {
    FirstTruthy(which, cmds)
  }
}
