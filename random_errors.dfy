/** The synthetic fault injector `randomErrors(enabled, threshold = 0.75)`
    (serverless-stack/lib/app/stateless/src/shared/random-errors.ts). The
    draw of `Math.random()` is a parameter; the function's only effect is the
    throw, so it is a predicate saying whether it throws. */
module RandomErrors {
  import opened Wrappers
  import opened Text

  const DefaultThreshold: real := 0.75

  /** `enabled?.toLowerCase() === 'false'`: the switch turns injection off. */
  predicate SwitchedOff(enabled: Option<string>) {
    enabled.Some? && Lower(enabled.value) == "false"
  }

  /** `randomErrors(enabled, threshold)` throws 'random error!!!' for this draw. */
  predicate Throws(enabled: Option<string>, threshold: real, draw: real)
    ensures Throws(enabled, threshold, draw) ==> draw > threshold
    // an unset switch leaves injection on
    ensures enabled.None? ==> (Throws(enabled, threshold, draw) <==> draw > threshold)
  {
    !SwitchedOff(enabled) && draw > threshold
  }

  /** A switch that lower-cases to "false" never throws, whatever the threshold and draw. */
  lemma OffNeverThrows(enabled: Option<string>, threshold: real, draw: real)
    requires enabled.Some? && Lower(enabled.value) == "false"
    ensures !Throws(enabled, threshold, draw)
  {
  }

  /** "false", "FALSE" and "False" all switch injection off. */
  lemma FalseInAnyCase()
    ensures SwitchedOff(Some("false"))
    ensures SwitchedOff(Some("FALSE"))
    ensures SwitchedOff(Some("False"))
  {
    assert Lower("FALSE") == "false";
    assert Lower("False") == "false";
    assert Lower("false") == "false";
  }

  /** An undefined switch does not turn injection off (`undefined !== 'false'`),
      and neither does any string other than a spelling of "false". */
  lemma UndefinedOrOtherEnables(threshold: real, draw: real)
    requires draw > threshold
    ensures Throws(None, threshold, draw)
    ensures Throws(Some("true"), threshold, draw)
    ensures Throws(Some("no"), threshold, draw)
    ensures Throws(Some("0"), threshold, draw)
  {
    assert Lower("true")[0] == 't';
    assert Lower("no")[0] == 'n';
    assert Lower("0")[0] == '0';
  }

  /** A switch that is on throws exactly when the draw exceeds the threshold. */
  lemma OnThrowsAboveThreshold(enabled: Option<string>, threshold: real, draw: real)
    requires !SwitchedOff(enabled)
    ensures Throws(enabled, threshold, draw) <==> draw > threshold
  {
  }

  /** With a threshold of 1 or more, a draw of `Math.random()`, which lies in
      [0, 1), never throws. */
  lemma HighThresholdNeverThrows(enabled: Option<string>, threshold: real, draw: real)
    requires threshold >= 1.0
    requires 0.0 <= draw < 1.0
    ensures !Throws(enabled, threshold, draw)
  {
  }
}
