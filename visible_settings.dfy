/**
 * Making the plugin's settings visible once (ArcWelderPlugin.py, lines 105-119): every
 * setting key that does not yet occur in the `general/visible_settings` preference
 * string is appended to it as `;key`.
 */
module VisibleSettings {
  import opened Text

  /** The preference string after the keys are considered left to right. */
  function MergeKeys(visible: string, keys: seq<string>): string
    decreases |keys|
  {
    if |keys| == 0 then visible
    else MergeKeys(if Contains(visible, keys[0]) then visible else visible + ";" + keys[0], keys[1..])
  }

  /** The original preference string is a prefix of the result. */
  lemma {:induction false} MergeExtends(visible: string, keys: seq<string>)
    ensures visible <= MergeKeys(visible, keys)
    decreases |keys|
  {
    if |keys| > 0 {
      var next := if Contains(visible, keys[0]) then visible else visible + ";" + keys[0];
      MergeExtends(next, keys[1..]);
    }
  }

  /** Text that occurs in the starting string still occurs in the result. */
  lemma {:induction false} MergeKeepsSubstrings(visible: string, keys: seq<string>, sub: string)
    requires Contains(visible, sub)
    ensures Contains(MergeKeys(visible, keys), sub)
    decreases |keys|
  {
    if |keys| > 0 {
      var next := if Contains(visible, keys[0]) then visible else visible + ";" + keys[0];
      if !Contains(visible, keys[0]) {
        ContainsExtend(visible, ";" + keys[0], sub);
        assert visible + ";" + keys[0] == visible + (";" + keys[0]);
      }
      MergeKeepsSubstrings(next, keys[1..], sub);
    }
  }

  /** Afterwards every setting key occurs in the preference string. */
  lemma {:induction false} MergeCoversKeys(visible: string, keys: seq<string>)
    ensures forall k :: 0 <= k < |keys| ==> Contains(MergeKeys(visible, keys), keys[k])
    decreases |keys|
  {
    if |keys| > 0 {
      var next := if Contains(visible, keys[0]) then visible else visible + ";" + keys[0];
      if !Contains(visible, keys[0]) {
        ContainsSuffix(visible + ";", keys[0]);
      }
      MergeKeepsSubstrings(next, keys[1..], keys[0]);
      MergeCoversKeys(next, keys[1..]);
      assert forall k :: 1 <= k < |keys| ==> keys[k] == keys[1..][k - 1];
    }
  }

  /** Nothing is appended exactly when every key already occurs in the original string. */
  lemma {:induction false} MergeUnchangedIff(visible: string, keys: seq<string>)
    ensures MergeKeys(visible, keys) == visible <==> forall k :: 0 <= k < |keys| ==> Contains(visible, keys[k])
    decreases |keys|
  {
    if |keys| > 0 {
      if Contains(visible, keys[0]) {
        MergeUnchangedIff(visible, keys[1..]);
        assert forall k :: 1 <= k < |keys| ==> keys[k] == keys[1..][k - 1];
      } else {
        var next := visible + ";" + keys[0];
        MergeExtends(next, keys[1..]);
        assert |MergeKeys(visible, keys)| > |visible|;
      }
    }
  }

  /**
   * The loop of ArcWelderPlugin.py, lines 109-114: `merged` is the new preference string and `changed`
   * is `visible_settings_changed`.
   */
  method MergeVisibleSettings(visible: string, keys: seq<string>) returns (merged: string, changed: bool)
    ensures merged == MergeKeys(visible, keys)
    ensures visible <= merged
    ensures forall k :: 0 <= k < |keys| ==> Contains(merged, keys[k])
    ensures changed <==> merged != visible
    ensures changed <==> exists k :: 0 <= k < |keys| && !Contains(visible, keys[k])
  {
    merged, changed := visible, false;
    var i := 0;
    while i < |keys|
      invariant 0 <= i <= |keys|
      invariant visible <= merged
      invariant changed <==> |merged| > |visible|
      invariant MergeKeys(merged, keys[i..]) == MergeKeys(visible, keys)
    {
      assert keys[i..][1..] == keys[i + 1..];
      if !Contains(merged, keys[i]) {
        merged := merged + ";" + keys[i];
        changed := true;
      }
      i := i + 1;
    }
    assert keys[i..] == [];
    MergeExtends(visible, keys);
    MergeCoversKeys(visible, keys);
    MergeUnchangedIff(visible, keys);
  }

  /** The preferences the hook reads and writes. */
  class Preferences {
    var visibleSettings: string      // general/visible_settings
    var settingsMadeVisible: bool    // arcwelderplugin/settings_made_visible

    constructor (visibleSettings: string, settingsMadeVisible: bool)
      ensures this.visibleSettings == visibleSettings && this.settingsMadeVisible == settingsMadeVisible
    {
      this.visibleSettings := visibleSettings;
      this.settingsMadeVisible := settingsMadeVisible;
    }

    /**
     * ArcWelderPlugin.py, lines 105-119, given the plugin's setting keys: done once, then the
     * preference records that it was done.
     */
    method MakeSettingsVisible(settingKeys: seq<string>)
      modifies this
      ensures settingsMadeVisible
      ensures old(settingsMadeVisible) ==> visibleSettings == old(visibleSettings)
      ensures !old(settingsMadeVisible) ==> visibleSettings == MergeKeys(old(visibleSettings), settingKeys)
    {
      if !settingsMadeVisible {
        var merged, changed := MergeVisibleSettings(visibleSettings, settingKeys);
        if changed {
          visibleSettings := merged;
        }
        settingsMadeVisible := true;
      }
    }
  }
}
