/** The settings screen's view-model: the EUR switch, mirrored into the flag store. */
module Settings {
  import opened FeatureFlags

  class SettingViewModel {
    var supportEUR: bool
    const provider: FeatureFlagProvider

    /**
     * Reads the switch from the store. Swift does not run `didSet` for assignments
     * made in an initialiser, so the store is left as it was.
     */
    constructor (provider: FeatureFlagProvider)
      ensures this.provider == provider
      ensures supportEUR == ValueIn(provider.flags, SupportEUR)
    {
      this.provider := provider;
      new;
      supportEUR := provider.GetValue(SupportEUR);
    }

    /** Assigning the switch; `didSet` writes the new value to the store. */
    method SetSupportEUR(value: bool)
      requires provider.Valid()
      modifies this`supportEUR, provider
      ensures supportEUR == value
      ensures provider.Valid()
      ensures provider.flags == old(provider.flags)[SupportEUR := value]
      ensures provider.flags == AfterAssignments(old(provider.flags), [value])
      ensures provider.published == old(provider.published) + [provider.flags]
    {
      supportEUR := value;
      provider.Update(SupportEUR, supportEUR);
    }
  }

  /** The store's flags after assigning each of `values` to the switch in turn. */
  function AfterAssignments(flags: Flags, values: seq<bool>): (r: Flags)
    ensures values == [] ==> r == flags
    ensures r.Keys == if values == [] then flags.Keys else flags.Keys + {SupportEUR}
    decreases |values|
  {
    if values == [] then flags else AfterAssignments(flags[SupportEUR := values[0]], values[1..])
  }

  /** After any non-empty sequence of assignments the store holds the last value assigned. */
  lemma {:induction false} LastAssignmentWins(flags: Flags, values: seq<bool>)
    requires values != []
    ensures ValueIn(AfterAssignments(flags, values), SupportEUR) == values[|values| - 1]
    decreases |values|
  {
    if |values| > 1 {
      LastAssignmentWins(flags[SupportEUR := values[0]], values[1..]);
    }
  }
}
