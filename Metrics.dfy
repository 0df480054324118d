/** The Prometheus gauges the exporter publishes: one sample per label tuple, wiped
    with `clear()` and written with `labels(...).set(value)`. */
module Metrics {

  /** The label tuple both gauges are declared with:
      `service_id`, `service_name`, `image`, `docker_hostname`. */
  datatype Labels = Labels(serviceId: string, serviceName: string, image: string, dockerHostname: string)

  /** One `labels(...).set(value)` call. */
  datatype Write = Write(labels: Labels, value: int)

  /** The samples of a gauge that was cleared and then given `writes`, in order. */
  function Replay(writes: seq<Write>): map<Labels, int>
  {
    if writes == [] then map[]
    else
      var last := writes[|writes| - 1];
      Replay(writes[..|writes| - 1])[last.labels := last.value]
  }

  /** The label tuples ever written. */
  function WrittenLabels(writes: seq<Write>): set<Labels>
  {
    set w | w in writes :: w.labels
  }

  lemma ReplayAppend(writes: seq<Write>, w: Write)
    ensures Replay(writes + [w]) == Replay(writes)[w.labels := w.value]
  {
    assert (writes + [w])[..|writes|] == writes;
  }

  /** Two writes in a row. */
  lemma ReplayOfTwo(w0: Write, w1: Write)
    ensures Replay([w0, w1]) == map[w0.labels := w0.value][w1.labels := w1.value]
  {
    assert [w0, w1][..1] == [w0];
    assert [w0][..0] == [];
    assert Replay([w0]) == map[w0.labels := w0.value];
  }

  /** A cleared gauge holds a sample for exactly the label tuples written since. */
  lemma {:induction false} ReplayKeys(writes: seq<Write>)
    ensures Replay(writes).Keys == WrittenLabels(writes)
  {
    if writes != [] {
      var init, last := writes[..|writes| - 1], writes[|writes| - 1];
      ReplayKeys(init);
      assert writes == init + [last];
      assert WrittenLabels(writes) == WrittenLabels(init) + {last.labels};
    }
  }

  /** Last write wins: a sample holds the value of the last write to its label tuple. */
  lemma {:induction false} ReplayLastWriteWins(writes: seq<Write>, i: nat)
    requires i < |writes|
    requires forall j | i < j < |writes| :: writes[j].labels != writes[i].labels
    ensures writes[i].labels in Replay(writes)
    ensures Replay(writes)[writes[i].labels] == writes[i].value
  {
    if i < |writes| - 1 {
      ReplayLastWriteWins(writes[..|writes| - 1], i);
    }
  }

  /** `prometheus_client.Gauge` with a fixed label tuple. */
  class Gauge {
    const name: string
    const documentation: string
    var samples: map<Labels, int>

    constructor (name: string, documentation: string)
      ensures this.name == name && this.documentation == documentation && samples == map[]
    {
      this.name := name;
      this.documentation := documentation;
      samples := map[];
    }

    /** `gauge.clear()`: drops every sample, whatever its labels. */
    method Clear()
      modifies this
      ensures samples == map[]
    {
      samples := map[];
    }

    /** `gauge.labels(...).set(value)`: inserts or overwrites one sample. */
    method Set(labels: Labels, value: int)
      modifies this
      ensures samples == old(samples)[labels := value]
    {
      samples := samples[labels := value];
    }
  }
}
