/**
  The identity of an idempotent submission: `namespace/name/key`, digested into a
  job id.  Namespace and deployment name follow the resource-name pattern, which
  has no slash; the key is the client's and may contain any character.
*/
module JobIdentity {
  import opened InferenceQueue

  predicate NameChar(c: char) { 'a' <= c <= 'z' || '0' <= c <= '9' || c == '-' }

  /** The resource-name pattern: 1 to 63 of these, with no dash at either end. */
  predicate ResourceName(s: string) {
    && 1 <= |s| <= 63
    && (forall i :: 0 <= i < |s| ==> NameChar(s[i]))
    && s[0] != '-' && s[|s| - 1] != '-'
  }

  predicate Alphanumeric(c: char) { 'a' <= c <= 'z' || '0' <= c <= '9' }

  /** The same as the regular expression has it: one of these, or two with up to 61 of these or dashes in between. */
  lemma NamePattern(s: string)
    ensures ResourceName(s) <==>
      || (|s| == 1 && Alphanumeric(s[0]))
      || (&& 2 <= |s| <= 63 && Alphanumeric(s[0]) && Alphanumeric(s[|s| - 1])
          && forall i :: 1 <= i < |s| - 1 ==> Alphanumeric(s[i]) || s[i] == '-')
  {
    if ResourceName(s) { assert NameChar(s[0]) && NameChar(s[|s| - 1]); }
  }

  function Identity(namespace: string, name: string, key: string): string {
    namespace + "/" + name + "/" + key
  }

  function FirstSlash(s: string): (n: nat)
    ensures n <= |s|
  {
    if s == "" || s[0] == '/' then 0 else 1 + FirstSlash(s[1..])
  }

  lemma {:induction false} FirstSlashAfter(a: string, rest: string)
    requires '/' !in a
    ensures FirstSlash(a + "/" + rest) == |a|
  {
    if a == "" {
      assert (a + "/" + rest)[0] == '/';
    } else {
      assert (a + "/" + rest)[1..] == a[1..] + "/" + rest;
      FirstSlashAfter(a[1..], rest);
    }
  }

  /** Text with a slash-free prefix splits in one way only. */
  lemma SplitAtSlash(a: string, rest: string, a': string, rest': string)
    requires '/' !in a && '/' !in a'
    requires a + "/" + rest == a' + "/" + rest'
    ensures a == a' && rest == rest'
  {
    var s, s' := a + "/" + rest, a' + "/" + rest';
    FirstSlashAfter(a, rest);
    FirstSlashAfter(a', rest');
    assert a == s[..|a|] && a' == s'[..|a'|];
    assert rest == s[|a| + 1..] && rest' == s'[|a'| + 1..];
  }

  lemma NoSlash(s: string)
    requires ResourceName(s)
    ensures '/' !in s
  {
    forall i | 0 <= i < |s| ensures s[i] != '/' { assert NameChar(s[i]); }
  }

  /** The identity is injective, whatever the key contains. */
  lemma IdentityInjective(ns: string, name: string, key: string, ns': string, name': string, key': string)
    requires ResourceName(ns) && ResourceName(name) && ResourceName(ns') && ResourceName(name')
    ensures Identity(ns, name, key) == Identity(ns', name', key') <==> ns == ns' && name == name' && key == key'
  {
    if Identity(ns, name, key) == Identity(ns', name', key') {
      NoSlash(ns); NoSlash(name); NoSlash(ns'); NoSlash(name');
      assert Identity(ns, name, key) == ns + "/" + (name + "/" + key);
      assert Identity(ns', name', key') == ns' + "/" + (name' + "/" + key');
      SplitAtSlash(ns, name + "/" + key, ns', name' + "/" + key');
      SplitAtSlash(name, key, name', key');
    }
  }

  /** The digest is taken to be collision-free. */
  ghost predicate CollisionFree(digest: string -> JobId) {
    forall s, t :: digest(s) == digest(t) ==> s == t
  }

  /**
    Two submissions with a key reach the same job exactly if they name the same
    deployment and key, so a second one is a repeat or a conflict of its own first
    and never of a stranger's.
  */
  lemma KeysSeparateJobs(digest: string -> JobId, st: Store, capacity: int,
                         ns: string, name: string, key: string, payload: Payload,
                         ns': string, name': string, key': string, payload': Payload)
    requires CollisionFree(digest)
    requires ResourceName(ns) && ResourceName(name) && ResourceName(ns') && ResourceName(name')
    requires digest(Identity(ns, name, key)) !in st.jobs && |st.queue| < capacity
    ensures var id, id' := digest(Identity(ns, name, key)), digest(Identity(ns', name', key'));
      var st' := Enqueued(st, id, payload, capacity);
      && (id == id' <==> ns == ns' && name == name' && key == key')
      && (id == id' ==>
            && Enqueued(st', id', payload', capacity) == st'
            && Reply(st', id', payload', capacity) == if payload == payload' then Unchanged else Conflict)
      && (id != id' ==> Lookup(st', id') == Lookup(st, id'))
  {
    IdentityInjective(ns, name, key, ns', name', key');
  }
}
