/** The API-key section of the settings page: creating a key by name,
    the masked key and the rate-limit line shown per key. */
module ApikeysSettings {
  import opened Wrappers
  import Strings

  /** A name is sent only when it is not blank once trimmed. */
  function NameAccepted(name: string): (b: bool)
    ensures b ==> name != ""
    ensures b <==> exists i :: 0 <= i < |name| && !Strings.IsWhitespace(name[i])
  {
    !Strings.IsBlank(name)
  }

  /** The empty name and whitespace-only names are refused. */
  lemma BlankNamesRefused(name: string)
    requires forall i :: 0 <= i < |name| ==> name[i] == ' ' || name[i] == '\t' || name[i] == '\n'
    ensures !NameAccepted(name)
  {
  }

  /** The key as listed: its stored start followed by a mask, or only a
      mask when there is no start. */
  function MaskedKey(start: Option<string>): (m: string)
    ensures TruthyString(start) ==> m == start.value + "...****"
    ensures !TruthyString(start) ==> m == "****...****"
  {
    if TruthyString(start) then start.value + "...****" else "****...****"
  }

  /** The listing reveals at most the stored start: it always ends in the
      mask, and whatever comes before the mask is the start itself. */
  lemma MaskHidesKey(start: Option<string>)
    ensures var m := MaskedKey(start);
      |m| >= 7 && m[|m| - 7..] == "...****"
    ensures var m := MaskedKey(start);
      TruthyString(start) ==> m[..|m| - 7] == start.value
    ensures var m := MaskedKey(start);
      !TruthyString(start) ==> m[..|m| - 7] == "****"
  {
  }

  /** The rate-limit line: shown only for a rate-limited key, as
      `remaining || rateLimitMax` over `rateLimitMax`. */
  datatype RateLimitLine = RateLimitLine(shown: Option<int>, max: Option<int>)

  function RateLimitDisplay(rateLimitEnabled: bool, remaining: Option<int>, rateLimitMax: Option<int>): (d: Option<RateLimitLine>)
    ensures d.Some? <==> rateLimitEnabled
    ensures d.Some? ==> d.value.max == rateLimitMax
    ensures d.Some? && TruthyNumber(remaining) ==> d.value.shown == remaining
    ensures d.Some? && !TruthyNumber(remaining) ==> d.value.shown == rateLimitMax
  {
    if rateLimitEnabled then
      Some(RateLimitLine(if TruthyNumber(remaining) then remaining else rateLimitMax, rateLimitMax))
    else None
  }

  /** A key with no requests remaining shows its maximum, as if unused. */
  lemma ExhaustedShowsMax(max: Option<int>)
    ensures RateLimitDisplay(true, Some(0), max) == RateLimitDisplay(true, None, max)
    ensures RateLimitDisplay(true, Some(0), max) == Some(RateLimitLine(max, max))
  {
  }

  /** The section's state. */
  class ApiKeysSettingsState {
    var isCreating: bool
    var newKeyName: string
    var createdKey: Option<string>

    constructor ()
      ensures !isCreating && newKeyName == "" && createdKey == None
    {
      isCreating, newKeyName, createdKey := false, "", None;
    }

    /** `handleCreateKey`. A blank name is refused before any call;
        `called` is the name sent to the create mutation. `outcome` is the
        mutation's result (`None` when it rejects, which is swallowed;
        `Some(key)` with the result's key otherwise). Only a result with a
        key shows it and clears the name. */
    method HandleCreateKey(outcome: Option<Option<string>>) returns (called: Option<string>)
      modifies this
      ensures !NameAccepted(old(newKeyName)) ==>
        called == None && newKeyName == old(newKeyName) && createdKey == old(createdKey)
      ensures NameAccepted(old(newKeyName)) ==> called == Some(old(newKeyName))
      ensures NameAccepted(old(newKeyName)) && outcome.Some? && TruthyString(outcome.value) ==>
        createdKey == outcome.value && newKeyName == ""
      ensures NameAccepted(old(newKeyName)) && !(outcome.Some? && TruthyString(outcome.value)) ==>
        createdKey == old(createdKey) && newKeyName == old(newKeyName)
      ensures isCreating == old(isCreating)
    {
      if !NameAccepted(newKeyName) {
        return None;
      }
      called := Some(newKeyName);
      if outcome.Some? && TruthyString(outcome.value) {
        createdKey := outcome.value;
        newKeyName := "";
      }
    }

    /** "Done": forgets the created key and closes the dialog. */
    method Done()
      modifies this
      ensures createdKey == None && !isCreating && newKeyName == old(newKeyName)
    {
      createdKey := None;
      isCreating := false;
    }
  }
}
