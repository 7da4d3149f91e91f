/**
 * The Prometheus side of the monitor: gauge children that the probes
 * overwrite, and the labelled family `plus_monitoring` whose `labels(...)`
 * hands out one child per label tuple.
 */
module Metrics {

  /** The label values of one `plus_monitoring` child, in the order name, fqdn, port, type. */
  datatype Labels = Labels(name: string, fqdn: string, port: string, serviceType: string)

  /** One gauge child: its current value (a new child reads 0). */
  class Gauge {
    var value: int

    constructor ()
      ensures value == 0
    {
      value := 0;
    }

    /** `metric.set(v)`: each write overwrites the previous value. */
    method Set(v: int)
      modifies this
      ensures value == v
    {
      value := v;
    }
  }

  /** A labelled gauge: the child created for each label tuple seen so far. */
  class GaugeFamily {
    var children: map<Labels, Gauge>

    /** Different label tuples own different children. */
    ghost predicate Valid()
      reads this
    {
      forall a, b :: a in children && b in children && a != b ==> children[a] != children[b]
    }

    constructor ()
      ensures Valid() && children == map[]
    {
      children := map[];
    }

    /** `family.labels(...)`: the child of `l`, created at 0 on first use. */
    method Child(l: Labels) returns (g: Gauge)
      requires Valid()
      modifies this
      ensures Valid()
      ensures l in old(children) ==> g == old(children)[l] && children == old(children)
      ensures l !in old(children) ==> fresh(g) && g.value == 0 && children == old(children)[l := g]
    {
      if l in children {
        g := children[l];
      } else {
        g := new Gauge();
        children := children[l := g];
      }
    }
  }
}
