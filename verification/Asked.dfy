/** What a resource asks for, read off the resource as the user wrote it, and what it means to have got it. */
module Asked {
  import opened Kubernetes
  import opened ApiStore

  /** The account that is created and bound. */
  function AskedAccount(cr: CR): string {
    if cr.account.Some? && cr.account.value.name != "" then cr.account.value.name else cr.meta.name
  }

  predicate AskedRbac(cr: CR) {
    (cr.rbac.None? || cr.rbac.value) && (cr.account.None? || cr.account.value.enable)
  }

  /** The binding refers to the role and has the subject, behind the subjects it had. */
  ghost predicate Binds(ref: RoleRef, subject: Subject, before: Option<Obj>, after: Option<Obj>) {
    && after.Some? && (after.value.ClusterRoleBinding? || after.value.RoleBinding?)
    && after.value.roleRef == ref && subject in after.value.subjects
    && (before.None? ==>
          && after.value.subjects == [subject]
          && after.value.meta.labels.None? && after.value.meta.annotations == map[])
    && (before.Some? ==>
          && (before.value.ClusterRoleBinding? || before.value.RoleBinding?)
          && after.value.meta == before.value.meta
          && after.value.subjects
              == before.value.subjects + (if subject in before.value.subjects then [] else [subject]))
  }

  predicate HasRules(o: Option<Obj>, rules: Literal) {
    o.Some? && (o.value.ClusterRole? || o.value.Role?) && o.value.rules == rules
  }

  predicate RbacKind(k: Kind) {
    k == ClusterRoleKind || k == ClusterRoleBindingKind || k == RoleKind || k == RoleBindingKind
  }

  /** The binding under the key has the pods' account among its subjects. */
  predicate Grants(s: Store, k: Key, pods: PodTemplate) {
    && k in s.objects && (s.objects[k].obj.ClusterRoleBinding? || s.objects[k].obj.RoleBinding?)
    && Subject("ServiceAccount", "", pods.serviceAccount, pods.ns) in s.objects[k].obj.subjects
  }

  /** What sits under a key has the key's kind. */
  lemma FoundKind(s: Store, k: Key)
    requires Sound(s)
    ensures Object(s, k).Some? ==> KindOf(Object(s, k).value) == k.kind
  {
    assert k in s.objects ==> KeyOf(s.objects[k].obj) == k;
  }
}
