/** What a reconcile of a controller leaves of its children when calls fail, in terms of the resource as the user wrote
    it. */
module ControllerCuts {
  import opened Kubernetes
  import opened ApiStore
  import opened Tasks
  import opened Runs
  import opened Outcomes
  import opened ControllerPrograms
  import opened ControllerContents
  import opened Asked
  import CD = ControllerDeployment
  import CT = ControllerTheorems
  import ControllerConvergence
  import DeploymentConvergence

  ghost predicate AsBeforeOrAsked(cr: CR, s: Store, s': Store)
    requires cr.spec.ControllerSpec?
  {
    var d, v := DeploymentPlace(cr, s), Key(ServiceKind, cr.meta.ns, cr.meta.name);
    var m := Key(ConfigMapKind, cr.meta.ns, "cm-" + cr.meta.name);
    && (Object(s', d) == Object(s, d) || DeploymentAsAsked(cr, Object(s, d), Object(s', d)))
    && (Object(s', v) == Object(s, v) || ServiceAsAsked(cr, Object(s, v), Object(s', v)))
    && (Object(s', m) == Object(s, m) || ConfigAsAsked(cr, Object(s, m), Object(s', m)))
  }

  /** Whatever calls fail and whatever becomes of the console: Deployment, Service and config map are each as they were
      or as asked. */
  lemma WhateverFails(w: World, key: Key, c: Choice)
    requires CT.Live(w.store, key) && ControllerConvergence.Workable(CT.Instance(w.store, key), w.store, c)
    requires OrdersFit(Resource(w.store, key).spec.controller, c)
    ensures AsBeforeOrAsked(Resource(w.store, key), w.store, Reconcile(w, key, c).0.store)
  {
    hide Reconcile, Resolved, SetDefaults, Outcome, Kept, Single, DeployTask, ControllerServiceTask, ConfigTask,
         ServiceTask, OrdersFit, ControllerConvergence.Workable, DeploymentConvergence.Attempted, CD.UpdateSpec,
         ControllerContents.DeploymentAsAsked, ControllerContents.ServiceAsAsked, ControllerContents.ConfigAsAsked;
    var s, s', cr, d := w.store, Reconcile(w, key, c).0.store, Resource(w.store, key), CT.Instance(w.store, key);
    var v, m := Key(ServiceKind, key.ns, key.name), Key(ConfigMapKind, key.ns, "cm-" + key.name);
    ControllerConvergence.ReconcileCut(w, key, c);
    DefaultsKeep(cr);
    Members(d, c, s);
    PlaceIsKept(cr, c, s);
    FoundKind(s, DeploymentPlace(cr, s));
    DeploymentMade(cr, c, s, Object(s, DeploymentPlace(cr, s)));
    Step(Resolved(d, c, s), s, s', DeployTask(d, c, s));
    FoundKind(s, v);
    ServiceTaskOf(cr);
    ServiceMade(cr, Object(s, v));
    Step(Resolved(d, c, s), s, s', ControllerServiceTask(d));
    FoundKind(s, m);
    ConfigMade(cr, Object(s, m));
    Step(Resolved(d, c, s), s, s', ConfigTask(d));
  }

  lemma Step(todo: seq<Task>, s: Store, s': Store, t: Task)
    requires ControllerConvergence.AllAttempted(todo, s, s') && t in todo
    ensures Single(t)
    ensures || Object(s', Kept(t)) == Object(s, Kept(t))
            || (Outcome(t, Object(s, Kept(t))).Some? && Object(s', Kept(t)) == Outcome(t, Object(s, Kept(t))))
  {
    hide Outcome, Kept, Single;
    var i :| 0 <= i < |todo| && todo[i] == t;
  }
}
