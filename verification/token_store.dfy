/** The short-lived key/value store (Redis in the deployed broker) that stages the two
    credentials. Only its get / set / delete contract matters; expiry is not modelled. */
module TokenStore {
  import opened Options

  type Store = map<string, string>

  /** Namespace of the host token a device deposits for its controller. */
  const HostPrefix: string := "HT:"
  /** Namespace of the client token a controller posts for its device. */
  const ClientPrefix: string := "CT:"

  function HostKey(machine: string): string {
    HostPrefix + machine
  }

  function ClientKey(machine: string): string {
    ClientPrefix + machine
  }

  /** A read of a key: None when the key is absent. */
  function Get(st: Store, key: string): (v: Option<string>)
    ensures v.Some? <==> key in st
    ensures v.Some? ==> v.value == st[key]
  {
    if key in st then Some(st[key]) else None
  }

  /** A write: the key now reads back the value, and no other key changes. */
  function Set(st: Store, key: string, value: string): (st': Store)
    ensures Get(st', key) == Some(value)
    ensures forall k :: k != key ==> Get(st', k) == Get(st, k)
  {
    st[key := value]
  }

  /** A delete: the key now reads back as absent, and no other key changes. */
  function Delete(st: Store, key: string): (st': Store)
    ensures Get(st', key) == None
    ensures forall k :: k != key ==> Get(st', k) == Get(st, k)
  {
    st - {key}
  }

  /** Two machines share a host-token key only when they are the same machine. */
  lemma HostKeyInjective(a: string, b: string)
    ensures HostKey(a) == HostKey(b) <==> a == b
  {
    if HostKey(a) == HostKey(b) {
      assert a == HostKey(a)[|HostPrefix|..];
      assert b == HostKey(b)[|HostPrefix|..];
    }
  }

  /** Two machines share a client-token key only when they are the same machine. */
  lemma ClientKeyInjective(a: string, b: string)
    ensures ClientKey(a) == ClientKey(b) <==> a == b
  {
    if ClientKey(a) == ClientKey(b) {
      assert a == ClientKey(a)[|ClientPrefix|..];
      assert b == ClientKey(b)[|ClientPrefix|..];
    }
  }

  /** The two namespaces never collide, whatever the machine ids. */
  lemma NamespacesDisjoint(a: string, b: string)
    ensures HostKey(a) != ClientKey(b)
  {
    assert HostKey(a)[0] == 'H';
    assert ClientKey(b)[0] == 'C';
  }
}
