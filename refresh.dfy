/**
 * `useFeedingRefresh`: a counter whose increments ask its watchers to
 * reload the feedings. Each call of the composable makes a fresh
 * `ref(0)`, so every caller owns its own counter (unlike the `useState`
 * of the toasts and the feedings array, which is shared); one
 * `RefreshCounter` is one such call.
 */
module Refresh {
  class RefreshCounter {
    var refreshTrigger: nat

    /** The counter starts at 0. */
    constructor ()
      ensures refreshTrigger == 0
    {
      refreshTrigger := 0;
    }

    /** `triggerRefresh`: one more than before. */
    method TriggerRefresh()
      modifies this
      ensures refreshTrigger == old(refreshTrigger) + 1
    {
      refreshTrigger := refreshTrigger + 1;
    }
  }
}
