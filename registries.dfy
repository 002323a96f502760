/**
 * The process-wide registries of adapters, anomaly detectors and forecasters,
 * each a hash from name to handler that `register_*` updates in place.
 */
module Registries {

  /** The three registries; `A`, `D` and `F` are the handler types (adapter classes and blocks). */
  class Extensions<A, D, F> {
    var adapters: map<string, A>
    var anomalyDetectors: map<string, D>
    var forecasters: map<string, F>

    /** `@adapters ||= {}` and the like: every registry starts empty. */
    constructor ()
      ensures adapters == map[] && anomalyDetectors == map[] && forecasters == map[]
    {
      adapters, anomalyDetectors, forecasters := map[], map[], map[];
    }

    /** `register_adapter(name, adapter)` */
    method RegisterAdapter(name: string, adapter: A)
      modifies this
      ensures name in adapters && adapters[name] == adapter
      ensures adapters.Keys == old(adapters.Keys) + {name}
      ensures adapters == Registered(old(adapters), [(name, adapter)])
      ensures forall n :: n in old(adapters) && n != name ==> adapters[n] == old(adapters[n])
      ensures anomalyDetectors == old(anomalyDetectors) && forecasters == old(forecasters)
    {
      adapters := adapters[name := adapter];
    }

    /** `register_anomaly_detector(name, &detector)` */
    method RegisterAnomalyDetector(name: string, detector: D)
      modifies this
      ensures name in anomalyDetectors && anomalyDetectors[name] == detector
      ensures anomalyDetectors.Keys == old(anomalyDetectors.Keys) + {name}
      ensures anomalyDetectors == Registered(old(anomalyDetectors), [(name, detector)])
      ensures forall n :: n in old(anomalyDetectors) && n != name ==> anomalyDetectors[n] == old(anomalyDetectors[n])
      ensures adapters == old(adapters) && forecasters == old(forecasters)
    {
      anomalyDetectors := anomalyDetectors[name := detector];
    }

    /** `register_forecaster(name, &forecaster)` */
    method RegisterForecaster(name: string, forecaster: F)
      modifies this
      ensures name in forecasters && forecasters[name] == forecaster
      ensures forecasters.Keys == old(forecasters.Keys) + {name}
      ensures forecasters == Registered(old(forecasters), [(name, forecaster)])
      ensures forall n :: n in old(forecasters) && n != name ==> forecasters[n] == old(forecasters[n])
      ensures adapters == old(adapters) && anomalyDetectors == old(anomalyDetectors)
    {
      forecasters := forecasters[name := forecaster];
    }
  }

  /** A registry after the registrations `regs`, made one after the other. */
  function Registered<H>(m: map<string, H>, regs: seq<(string, H)>): map<string, H>
    decreases |regs|
  {
    if regs == [] then m
    else Registered(m, regs[..|regs| - 1])[regs[|regs| - 1].0 := regs[|regs| - 1].1]
  }

  /**
   * After a series of registrations a name is known exactly when it was known or registered,
   * and it maps to its last registration, or to its old handler when it was never registered.
   */
  lemma {:induction false} RegisteredLookup<H>(m: map<string, H>, regs: seq<(string, H)>, n: string)
    ensures n in Registered(m, regs) <==> n in m || exists i :: 0 <= i < |regs| && regs[i].0 == n
    ensures (forall i :: 0 <= i < |regs| ==> regs[i].0 != n) && n in m ==> Registered(m, regs)[n] == m[n]
    ensures forall i :: 0 <= i < |regs| && regs[i].0 == n && (forall j :: i < j < |regs| ==> regs[j].0 != n) ==>
              Registered(m, regs)[n] == regs[i].1
    decreases |regs|
  {
    if regs != [] {
      var init := regs[..|regs| - 1];
      RegisteredLookup(m, init, n);
      forall i | 0 <= i < |regs| - 1 ensures init[i] == regs[i] { }
    }
  }
}
