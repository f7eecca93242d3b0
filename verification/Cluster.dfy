/**
 The part of a Kubernetes cluster that serving rests on (k8s/sim.js): Deployments with a
 number of ready pods, and Services that resolve to whichever pods their selector matches.

 Applying a manifest over an existing Deployment is a rolling update, as it is on a real
 cluster (k8s/kubernetes.js): the pods that were ready stay ready, up to the new number
 wanted.
 */
module Cluster {
  import opened Prelude

  datatype LabelKey = ManagedBy | DeploymentId | ModelVersion | Component

  type Labels = map<LabelKey, string>

  /** A Deployment and its pods. `labels` are those of the pod template. */
  datatype PodSet = PodSet(desired: nat, ready: nat, reason: Option<string>, pendingReason: Option<string>,
                           labels: Labels)

  datatype State = State(deployments: map<string, PodSet>, services: map<string, Labels>)

  datatype Observation = Observation(desired: nat, ready: nat, reason: Option<string>, pendingReason: Option<string>)

  function Applied(c: State, name: string, desired: nat, labels: Labels): State {
    var pods := if name in c.deployments
                then c.deployments[name].(desired := desired, ready := Min(c.deployments[name].ready, desired), labels := labels)
                else PodSet(desired, 0, None, None, labels);
    c.(deployments := c.deployments[name := pods])
  }

  /** A Service is created if absent and otherwise left alone. */
  function ServiceApplied(c: State, name: string, selector: Labels): State {
    if name in c.services then c else c.(services := c.services[name := selector])
  }

  /** The selector is replaced wholesale, never merged. */
  function SelectorPatched(c: State, name: string, selector: Labels): State {
    if name in c.services then c.(services := c.services[name := selector]) else c
  }

  /** Deleting by name removes the Deployment and the Service of that name. */
  function Deleted(c: State, name: string): State {
    State(c.deployments - {name}, c.services - {name})
  }

  function Observed(c: State, name: string): Option<Observation> {
    if name in c.deployments then
      var p := c.deployments[name];
      Some(Observation(p.desired, p.ready, p.reason, p.pendingReason))
    else None
  }

  predicate Matches(selector: Labels, labels: Labels) {
    selector != map[] && forall k <- selector :: k in labels && labels[k] == selector[k]
  }

  /** The Deployments whose pods a selector reaches and which have one ready. */
  function Endpoints(c: State, selector: Labels): set<string> {
    set n | n in c.deployments && c.deployments[n].ready > 0 && Matches(selector, c.deployments[n].labels)
  }

  /** The Deployments that carry all of the given labels. */
  function Listed(c: State, labels: Labels): set<string> {
    set n | n in c.deployments && forall k <- labels :: k in c.deployments[n].labels && c.deployments[n].labels[k] == labels[k]
  }

  class SimCluster {
    var deployments: map<string, PodSet>
    var services: map<string, Labels>

    constructor ()
      ensures View() == State(map[], map[])
    {
      deployments, services := map[], map[];
    }

    function View(): State
      reads this
    {
      State(deployments, services)
    }

    method ApplyDeployment(name: string, desired: nat, labels: Labels)
      modifies this
      ensures View() == Applied(old(View()), name, desired, labels)
    {
      if name in deployments {
        var p := deployments[name];
        deployments := deployments[name := p.(desired := desired, ready := Min(p.ready, desired), labels := labels)];
      } else {
        deployments := deployments[name := PodSet(desired, 0, None, None, labels)];
      }
    }

    method ApplyService(name: string, selector: Labels)
      modifies this
      ensures View() == ServiceApplied(old(View()), name, selector)
    {
      if name !in services {
        services := services[name := selector];
      }
    }

    /** Fails when there is no such Service, changing nothing. */
    method PatchServiceSelector(name: string, selector: Labels) returns (ok: bool)
      modifies this
      ensures ok == (name in old(services))
      ensures View() == SelectorPatched(old(View()), name, selector)
    {
      ok := name in services;
      if ok {
        services := services[name := selector];
      }
    }

    method ListDeploymentNames(labels: Labels) returns (names: set<string>)
      ensures names == Listed(View(), labels)
    {
      names := {};
      var left := deployments.Keys;
      while left != {}
        invariant left <= deployments.Keys
        invariant names == Listed(View(), labels) - left
        decreases |left|
      {
        var n :| n in left;
        if forall k <- labels :: k in deployments[n].labels && deployments[n].labels[k] == labels[k] {
          names := names + {n};
        }
        left := left - {n};
      }
    }

    method ObserveDeployment(name: string) returns (o: Option<Observation>)
      ensures o == Observed(View(), name)
    {
      if name in deployments {
        var p := deployments[name];
        o := Some(Observation(p.desired, p.ready, p.reason, p.pendingReason));
      } else {
        o := None;
      }
    }

    method DeleteDeployment(name: string)
      modifies this
      ensures View() == Deleted(old(View()), name)
    {
      deployments := deployments - {name};
      services := services - {name};
    }
  }
}
