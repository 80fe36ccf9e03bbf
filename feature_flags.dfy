/**
 * The feature-flag store: a map from flag to Boolean held in a behaviour relay.
 * `update` publishes a copy of the map with one key changed; a subscriber to one
 * flag receives the relay's current map and every later one, each projected to
 * its flag, with consecutive repeats removed.
 *
 * The relay is modelled by the sequence of every map it has held; a subscription
 * is the position in that sequence at which it was made. The lock is not modelled.
 */
module FeatureFlags {
  import opened Common

  datatype FeatureFlagType = SupportEUR

  type Flags = map<FeatureFlagType, bool>

  /** `flags[flag] ?? false`: a flag that is absent reads as false. */
  function ValueIn(flags: Flags, flag: FeatureFlagType): (v: bool)
    ensures flag !in flags ==> !v
    ensures flag in flags ==> v == flags[flag]
  {
    if flag in flags then flags[flag] else false
  }

  /** `.map { $0[flag] ?? false }` over the published maps. */
  function Project(published: seq<Flags>, flag: FeatureFlagType): (r: seq<bool>)
    ensures |r| == |published|
    ensures forall i :: 0 <= i < |r| ==> r[i] == ValueIn(published[i], flag)
  {
    if published == [] then [] else [ValueIn(published[0], flag)] + Project(published[1..], flag)
  }

  /** `.distinctUntilChanged()`: drops every element equal to the one before it. */
  function Dedup<T(==)>(s: seq<T>): (r: seq<T>)
    ensures |r| <= |s|
    ensures r == [] <==> s == []
    ensures s != [] ==> r[0] == s[0] && r[|r| - 1] == s[|s| - 1]
    ensures forall i :: 0 <= i < |r| - 1 ==> r[i] != r[i + 1]
    ensures Subsequence(r, s)
  {
    if |s| <= 1 then s
    else if s[0] == s[1] then
      var rest := Dedup(s[1..]);
      assert rest == [] || Subsequence(rest, s[1..]);
      rest
    else
      var rest := Dedup(s[1..]);
      assert s == [s[0]] + s[1..];
      [s[0]] + rest
  }

  /** Appending to a stream extends its de-duplicated form only by a value that differs from the last one. */
  lemma {:induction false} DedupSnoc<T>(s: seq<T>, x: T)
    ensures Dedup(s + [x]) == if s != [] && s[|s| - 1] == x then Dedup(s) else Dedup(s) + [x]
  {
    if |s| == 1 {
      assert s + [x] == [s[0], x];
      assert (s + [x])[1..] == [x];
    } else if |s| > 1 {
      var t := s + [x];
      assert t[0] == s[0] && t[1] == s[1];
      assert t[1..] == s[1..] + [x];
      DedupSnoc(s[1..], x);
      var tail := Dedup(s[1..] + [x]);
      assert Dedup(t) == if s[0] == s[1] then tail else [s[0]] + tail;
      assert Dedup(s) == if s[0] == s[1] then Dedup(s[1..]) else [s[0]] + Dedup(s[1..]);
    }
  }

  /** A subscription to one flag, made when the relay held `published[from]`. */
  datatype Subscription = Subscription(flag: FeatureFlagType, from: nat)

  class FeatureFlagProvider {
    /** The relay's current value. */
    var flags: Flags
    /** Every value the relay has held, oldest first; the last one is `flags`. */
    var published: seq<Flags>

    ghost predicate Valid()
      reads this
    {
      |published| > 0 && published[|published| - 1] == flags
    }

    /** The store starts with EUR support switched off. */
    constructor ()
      ensures Valid()
      ensures flags == map[SupportEUR := false] && published == [flags]
      ensures !ValueIn(flags, SupportEUR)
    {
      flags := map[SupportEUR := false];
      published := [map[SupportEUR := false]];
    }

    method GetValue(flag: FeatureFlagType) returns (v: bool)
      ensures v == ValueIn(flags, flag)
      ensures flag !in flags ==> !v
    {
      v := if flag in flags then flags[flag] else false;
    }

    /** Copies the map, sets one key and publishes the copy. */
    method Update(flag: FeatureFlagType, newValue: bool)
      requires Valid()
      modifies this
      ensures Valid()
      ensures flags == old(flags)[flag := newValue]
      ensures published == old(published) + [flags]
      ensures ValueIn(flags, flag) == newValue
      ensures forall other :: other != flag ==> ValueIn(flags, other) == ValueIn(old(flags), other)
    {
      var existing := flags;
      existing := existing[flag := newValue];
      flags := existing;
      published := published + [existing];
    }

    /** Subscribing: the stream begins at the relay's current value. */
    method ObserveFlagValue(flag: FeatureFlagType) returns (sub: Subscription)
      requires Valid()
      ensures sub.flag == flag && sub.from < |published| && published[sub.from] == flags
      ensures Observed(sub) == [ValueIn(flags, flag)]
    {
      sub := Subscription(flag, |published| - 1);
      assert published[sub.from..] == [flags];
    }

    /** What a subscription has received so far. */
    function Observed(sub: Subscription): (r: seq<bool>)
      reads this
      requires sub.from < |published|
      ensures r != [] && r[0] == ValueIn(published[sub.from], sub.flag)
      ensures forall i :: 0 <= i < |r| - 1 ==> r[i] != r[i + 1]
      ensures r[|r| - 1] == ValueIn(published[|published| - 1], sub.flag)
    {
      Dedup(Project(published[sub.from..], sub.flag))
    }
  }

  /** Projecting one more map appends its value. */
  lemma ProjectSnoc(published: seq<Flags>, m: Flags, flag: FeatureFlagType)
    ensures Project(published + [m], flag) == Project(published, flag) + [ValueIn(m, flag)]
  {
  }

  /**
   * One `update` delivers to an existing subscription exactly one new element when
   * the flag's value changes, and nothing when it does not.
   */
  lemma {:induction false} ObservedAfterUpdate(published: seq<Flags>, from: nat, m: Flags, flag: FeatureFlagType)
    requires from < |published|
    ensures var before := Dedup(Project(published[from..], flag));
      var after := Dedup(Project((published + [m])[from..], flag));
      after == if ValueIn(m, flag) == ValueIn(published[|published| - 1], flag) then before
               else before + [ValueIn(m, flag)]
  {
    var tail := published[from..];
    assert (published + [m])[from..] == tail + [m];
    assert tail[|tail| - 1] == published[|published| - 1];
    ProjectSnoc(tail, m, flag);
    var p := Project(tail, flag);
    var v := ValueIn(m, flag);
    assert Project((published + [m])[from..], flag) == p + [v];
    assert p != [] && p[|p| - 1] == ValueIn(published[|published| - 1], flag);
    DedupSnoc(p, v);
  }

  /**
   * A subscriber that has so far seen only `false` and is then sent three maps in
   * which the flag is `true` has seen `[false, true]`.
   */
  lemma RepeatedValueEmittedOnce(p0: seq<Flags>, from: nat, on: Flags)
    requires from == |p0| - 1 && !ValueIn(p0[from], SupportEUR) && ValueIn(on, SupportEUR)
    ensures Dedup(Project((p0 + [on] + [on] + [on])[from..], SupportEUR)) == [false, true]
  {
    var tail := (p0 + [on] + [on] + [on])[from..];
    assert tail == [p0[from], on, on, on];
    var bits := Project(tail, SupportEUR);
    assert bits == [false, true, true, true];
    assert Dedup([true, true]) == Dedup([true]);
    assert Dedup([true, true, true]) == Dedup([true, true]);
    assert Dedup(bits) == [false] + Dedup([true, true, true]);
  }

  /**
   * Starting from a fresh store, a subscriber to `supportEUR` followed by three
   * `update(supportEUR, true)` calls receives exactly `[false, true]`.
   */
  method ThreeUpdatesEmitTwice() returns (emitted: seq<bool>)
    ensures emitted == [false, true]
  {
    var provider := new FeatureFlagProvider();
    var sub := provider.ObserveFlagValue(SupportEUR);
    ghost var p0 := provider.published;
    provider.Update(SupportEUR, true);
    ghost var on := provider.flags;
    provider.Update(SupportEUR, true);
    assert provider.flags == on;
    provider.Update(SupportEUR, true);
    assert provider.flags == on;
    assert provider.published == p0 + [on] + [on] + [on];
    RepeatedValueEmittedOnce(p0, sub.from, on);
    emitted := provider.Observed(sub);
  }
}
