/**
 * The output selection at the start of `Handle` (handler.go): every output
 * rule whose prefix and suffix filters accept the object key names a
 * storage provider and a path to copy the object to.
 */
module Routing {
  import opened Strings
  import opened Config

  /** The prefix filter: an empty list accepts every key, otherwise one prefix must match. */
  predicate PrefixOk(key: string, o: Output) {
    |o.prefix| == 0 || exists i :: 0 <= i < |o.prefix| && HasPrefix(key, o.prefix[i])
  }

  /** The suffix filter: an empty list accepts every key, otherwise one suffix must match. */
  predicate SuffixOk(key: string, o: Output) {
    |o.suffix| == 0 || exists i :: 0 <= i < |o.suffix| && HasSuffix(key, o.suffix[i])
  }

  /** An output rule selects a key when both filters accept it. */
  predicate Selects(key: string, o: Output) {
    PrefixOk(key, o) && SuffixOk(key, o)
  }

  /** The destinations the rules give, rule by rule: a later selecting rule overwrites an earlier one's path. */
  function Destinations(key: string, outputs: seq<Output>): map<string, string>
    decreases |outputs|
  {
    if outputs == [] then map[]
    else
      var o := outputs[|outputs| - 1];
      var d := Destinations(key, outputs[..|outputs| - 1]);
      if Selects(key, o) then d[o.storageProviderName := o.path] else d
  }

  /**
   * What the destinations are, without the fold: a provider is a destination
   * exactly when some selecting rule names it, and its path is that of the
   * last such rule.
   */
  lemma DestinationsChar(key: string, outputs: seq<Output>, n: string)
    ensures n in Destinations(key, outputs) <==>
      exists i :: 0 <= i < |outputs| && Selects(key, outputs[i]) && outputs[i].storageProviderName == n
    ensures n in Destinations(key, outputs) ==>
      exists i :: && 0 <= i < |outputs| && Selects(key, outputs[i]) && outputs[i].storageProviderName == n
                  && Destinations(key, outputs)[n] == outputs[i].path
                  && forall j :: i < j < |outputs| ==> !(Selects(key, outputs[j]) && outputs[j].storageProviderName == n)
  {
    DestinationsDomain(key, outputs, n);
    DestinationsPath(key, outputs, n);
  }

  /** The first half of `DestinationsChar`: which providers are destinations. */
  lemma {:induction false} DestinationsDomain(key: string, outputs: seq<Output>, n: string)
    ensures n in Destinations(key, outputs) <==>
      exists i :: 0 <= i < |outputs| && Selects(key, outputs[i]) && outputs[i].storageProviderName == n
    decreases |outputs|
  {
    if outputs != [] {
      var last := |outputs| - 1;
      var init := outputs[..last];
      DestinationsDomain(key, init, n);
      assert forall i :: 0 <= i < last ==> init[i] == outputs[i];
    }
  }

  /** The second half of `DestinationsChar`: which rule a destination's path comes from. */
  lemma {:induction false} DestinationsPath(key: string, outputs: seq<Output>, n: string)
    ensures n in Destinations(key, outputs) ==>
      exists i :: && 0 <= i < |outputs| && Selects(key, outputs[i]) && outputs[i].storageProviderName == n
                  && Destinations(key, outputs)[n] == outputs[i].path
                  && forall j :: i < j < |outputs| ==> !(Selects(key, outputs[j]) && outputs[j].storageProviderName == n)
    decreases |outputs|
  {
    if outputs != [] {
      var last := |outputs| - 1;
      var init := outputs[..last];
      DestinationsPath(key, init, n);
      if Selects(key, outputs[last]) && outputs[last].storageProviderName == n {
      } else if n in Destinations(key, outputs) {
        var i :| && 0 <= i < |init| && Selects(key, init[i]) && init[i].storageProviderName == n
                 && Destinations(key, init)[n] == init[i].path
                 && forall j :: i < j < |init| ==> !(Selects(key, init[j]) && init[j].storageProviderName == n);
        assert forall j :: i < j < last ==> init[j] == outputs[j];
        assert outputs[i] == init[i];
      }
    }
  }

  /**
   * Of two selecting rules for the same provider, the later one decides the
   * path when no rule after it selects the key for that provider.
   */
  lemma LaterRuleWins(key: string, outputs: seq<Output>, i: nat, j: nat)
    requires i < j < |outputs|
    requires Selects(key, outputs[i]) && Selects(key, outputs[j])
    requires outputs[i].storageProviderName == outputs[j].storageProviderName
    requires forall k :: j < k < |outputs| ==>
      !(Selects(key, outputs[k]) && outputs[k].storageProviderName == outputs[j].storageProviderName)
    ensures outputs[j].storageProviderName in Destinations(key, outputs)
    ensures Destinations(key, outputs)[outputs[j].storageProviderName] == outputs[j].path
  {
    var n := outputs[j].storageProviderName;
    DestinationsChar(key, outputs, n);
    var k :| && 0 <= k < |outputs| && Selects(key, outputs[k]) && outputs[k].storageProviderName == n
             && Destinations(key, outputs)[n] == outputs[k].path
             && forall m :: k < m < |outputs| ==> !(Selects(key, outputs[m]) && outputs[m].storageProviderName == n);
    assert !(k < j);
  }

  /** A rule with neither prefixes nor suffixes selects every key. */
  lemma UnfilteredRuleSelectsAll(key: string, o: Output)
    requires o.prefix == [] && o.suffix == []
    ensures Selects(key, o)
  {
  }

  /** Rules that select nothing route nowhere, so `Handle` stops before downloading. */
  lemma NoSelectingRule(key: string, outputs: seq<Output>)
    requires forall i :: 0 <= i < |outputs| ==> !Selects(key, outputs[i])
    ensures Destinations(key, outputs) == map[]
  {
    forall n ensures n !in Destinations(key, outputs) {
      DestinationsChar(key, outputs, n);
    }
  }

  /** A suffix-only rule for video and text files takes "clip.avi" and refuses "clip.mov". */
  lemma SuffixRuleScenario(provider: string, path: string)
    ensures Selects("clip.avi", Output(provider, path, ["avi", "txt"], []))
    ensures !Selects("clip.mov", Output(provider, path, ["avi", "txt"], []))
  {
    assert HasSuffix("clip.avi", ["avi", "txt"][0]);
    assert !HasSuffix("clip.mov", "avi") by { assert "clip.mov"[5..] != "avi" by { assert "clip.mov"[5] == 'm'; } }
    assert !HasSuffix("clip.mov", "txt") by { assert "clip.mov"[5..] != "txt" by { assert "clip.mov"[5] == 'm'; } }
  }

  /**
   * The selection loop of `Handle`: each rule's prefixes and then its
   * suffixes are searched until one matches.
   */
  method Route(key: string, outputs: seq<Output>) returns (dest: map<string, string>)
    ensures dest == Destinations(key, outputs)
    ensures forall n :: n in dest <==>
      exists i :: 0 <= i < |outputs| && Selects(key, outputs[i]) && outputs[i].storageProviderName == n
  {
    dest := map[];
    for k := 0 to |outputs|
      invariant dest == Destinations(key, outputs[..k])
    {
      var output := outputs[k];
      var prefixOk := false;
      var suffixOk := false;
      if |output.prefix| == 0 {
        prefixOk := true;
      } else {
        var j := 0;
        while j < |output.prefix|
          invariant 0 <= j <= |output.prefix|
          invariant !prefixOk
          invariant forall i :: 0 <= i < j ==> !HasPrefix(key, output.prefix[i])
        {
          if HasPrefix(key, output.prefix[j]) {
            prefixOk := true;
            break;
          }
          j := j + 1;
        }
      }
      assert prefixOk <==> PrefixOk(key, output);
      if prefixOk {
        if |output.suffix| == 0 {
          suffixOk := true;
        } else {
          var j := 0;
          while j < |output.suffix|
            invariant 0 <= j <= |output.suffix|
            invariant !suffixOk
            invariant forall i :: 0 <= i < j ==> !HasSuffix(key, output.suffix[i])
          {
            if HasSuffix(key, output.suffix[j]) {
              suffixOk := true;
              break;
            }
            j := j + 1;
          }
        }
        assert suffixOk <==> SuffixOk(key, output);
      }
      assert outputs[..k + 1][..k] == outputs[..k];
      if prefixOk && suffixOk {
        dest := dest[output.storageProviderName := output.path];
      }
    }
    assert outputs[..|outputs|] == outputs;
    forall n ensures n in dest <==>
      exists i :: 0 <= i < |outputs| && Selects(key, outputs[i]) && outputs[i].storageProviderName == n
    {
      DestinationsChar(key, outputs, n);
    }
  }
}
