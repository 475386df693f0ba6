/** The parts of the demo application iotconnect_demo.c that decide something:
    reading the three TLS credentials from the resource store, releasing on
    every failure path what was acquired, and the acknowledgements the command
    and OTA handlers build. The resource store (resource_get_readonly_buffer,
    resource_free_readonly_buffer) is recorded as the sequence of acquisitions
    and releases made through it; what each read answers is an input. */
module Demo {
  import opened Common

  /** No credential shorter than this is accepted (the dummy files shipped with the demo are). */
  const MIN_CREDENTIAL_SIZE: nat := 64

  datatype Resource = RootCa | ClientCert | PrivateKey

  datatype ResourceOp = Acquire(r: Resource) | Release(r: Resource)

  /** What a read of a resource answers: whether it succeeded, and the size it reported. */
  datatype Fetch = Fetch(ok: bool, size: nat)

  predicate Usable(f: Fetch) {
    f.ok && f.size >= MIN_CREDENTIAL_SIZE
  }

  /** The buffers still held after replaying `ops` on top of `stack`, when every release
      gives back the most recently acquired buffer still held; None when one does not. */
  function Replay(stack: seq<Resource>, ops: seq<ResourceOp>): Option<seq<Resource>>
    decreases |ops|
  {
    if ops == [] then Some(stack)
    else match ops[0]
      case Acquire(r) => Replay(stack + [r], ops[1..])
      case Release(r) =>
        if stack != [] && stack[|stack| - 1] == r then Replay(stack[..|stack| - 1], ops[1..]) else None
  }

  /** The acquisitions and releases get_credentials_from_resources makes when nothing is
      set yet: each buffer is read in turn; a failed read acquires nothing; a buffer that is
      too small is released at once; the cleanup chain then releases the client certificate
      (when held) and the CA certificate. */
  function CredentialOps(ca: Fetch, cert: Fetch, key: Fetch): seq<ResourceOp> {
    var caOps := [Acquire(RootCa)];
    var certOps := caOps + [Acquire(ClientCert)];
    var keyOps := certOps + [Acquire(PrivateKey)];
    if !ca.ok then []
    else if ca.size < MIN_CREDENTIAL_SIZE then caOps + [Release(RootCa)]
    else if !cert.ok then caOps + [Release(RootCa)]
    else if cert.size < MIN_CREDENTIAL_SIZE then certOps + [Release(ClientCert), Release(RootCa)]
    else if !key.ok then certOps + [Release(ClientCert), Release(RootCa)]
    else if key.size < MIN_CREDENTIAL_SIZE then keyOps + [Release(PrivateKey), Release(ClientCert), Release(RootCa)]
    else keyOps
  }

  /** Replaying an acquisition pushes the buffer. */
  lemma ReplayAcquire(stack: seq<Resource>, r: Resource, rest: seq<ResourceOp>)
    ensures Replay(stack, [Acquire(r)] + rest) == Replay(stack + [r], rest)
  {
    assert ([Acquire(r)] + rest)[1..] == rest;
  }

  /** Replaying the release of the buffer on top pops it. */
  lemma ReplayRelease(stack: seq<Resource>, r: Resource, rest: seq<ResourceOp>)
    ensures Replay(stack + [r], [Release(r)] + rest) == Replay(stack, rest)
  {
    assert ([Release(r)] + rest)[1..] == rest;
    assert (stack + [r])[..|stack + [r]| - 1] == stack;
  }

  /** The cleanup chain leaks nothing and releases in reverse order of acquisition: on any
      failure every buffer acquired is given back, most recent first, and on success the
      three are held, CA first. */
  lemma CredentialsNest(stack: seq<Resource>, ca: Fetch, cert: Fetch, key: Fetch)
    ensures Usable(ca) && Usable(cert) && Usable(key) ==>
              Replay(stack, CredentialOps(ca, cert, key)) == Some(stack + [RootCa, ClientCert, PrivateKey])
    ensures !(Usable(ca) && Usable(cert) && Usable(key)) ==> Replay(stack, CredentialOps(ca, cert, key)) == Some(stack)
  {
    var a := stack + [RootCa];
    var b := a + [ClientCert];
    var c := b + [PrivateKey];
    var ops := CredentialOps(ca, cert, key);
    if !ca.ok {
    } else if ca.size < MIN_CREDENTIAL_SIZE || !cert.ok {
      assert ops == [Acquire(RootCa)] + ([Release(RootCa)] + []);
      ReplayAcquire(stack, RootCa, [Release(RootCa)] + []);
      ReplayRelease(stack, RootCa, []);
    } else if cert.size < MIN_CREDENTIAL_SIZE || !key.ok {
      assert ops == [Acquire(RootCa)] + ([Acquire(ClientCert)] + ([Release(ClientCert)] + ([Release(RootCa)] + [])));
      ReplayAcquire(stack, RootCa, [Acquire(ClientCert)] + ([Release(ClientCert)] + ([Release(RootCa)] + [])));
      ReplayAcquire(a, ClientCert, [Release(ClientCert)] + ([Release(RootCa)] + []));
      ReplayRelease(a, ClientCert, [Release(RootCa)] + []);
      ReplayRelease(stack, RootCa, []);
    } else if key.size < MIN_CREDENTIAL_SIZE {
      var tail := [Release(PrivateKey)] + ([Release(ClientCert)] + ([Release(RootCa)] + []));
      assert ops == [Acquire(RootCa)] + ([Acquire(ClientCert)] + ([Acquire(PrivateKey)] + tail));
      ReplayAcquire(stack, RootCa, [Acquire(ClientCert)] + ([Acquire(PrivateKey)] + tail));
      ReplayAcquire(a, ClientCert, [Acquire(PrivateKey)] + tail);
      ReplayAcquire(b, PrivateKey, tail);
      ReplayRelease(b, PrivateKey, [Release(ClientCert)] + ([Release(RootCa)] + []));
      ReplayRelease(a, ClientCert, [Release(RootCa)] + []);
      ReplayRelease(stack, RootCa, []);
    } else {
      assert ops == [Acquire(RootCa)] + ([Acquire(ClientCert)] + ([Acquire(PrivateKey)] + []));
      ReplayAcquire(stack, RootCa, [Acquire(ClientCert)] + ([Acquire(PrivateKey)] + []));
      ReplayAcquire(a, ClientCert, [Acquire(PrivateKey)] + []);
      ReplayAcquire(b, PrivateKey, []);
      assert c == stack + [RootCa, ClientCert, PrivateKey];
    }
  }

  /** The resource store, as the record of what was acquired and released through it. */
  class ResourceStore {
    var ops: seq<ResourceOp>

    constructor ()
      ensures ops == []
    {
      ops := [];
    }

    /** resource_get_readonly_buffer: a successful read hands out the buffer. */
    method Get(r: Resource, f: Fetch) returns (ok: bool, size: nat)
      modifies this
      ensures ok == f.ok && size == f.size
      ensures ops == old(ops) + (if f.ok then [Acquire(r)] else [])
    {
      if f.ok {
        ops := ops + [Acquire(r)];
      }
      ok, size := f.ok, f.size;
    }

    /** resource_free_readonly_buffer. */
    method Free(r: Resource)
      modifies this
      ensures ops == old(ops) + [Release(r)]
    {
      ops := ops + [Release(r)];
    }
  }

  /** wiced_mqtt_security_t: which credential pointers are set, and their lengths. */
  class Security {
    var hasCaCert: bool
    var hasCert: bool
    var hasKey: bool
    var caCertLen: nat
    var certLen: nat
    var keyLen: nat

    /** A zeroed structure, as IotConnectSdk_InitAndGetConfig leaves it. */
    constructor ()
      ensures !hasCaCert && !hasCert && !hasKey && caCertLen == 0 && certLen == 0 && keyLen == 0
    {
      hasCaCert, hasCert, hasKey := false, false, false;
      caCertLen, certLen, keyLen := 0, 0, 0;
    }
  }

  /** Lines 243-287 of get_credentials_from_resources: the CA certificate, the client
      certificate and the key are read in turn, each must be at least 64 bytes, and the first
      one that is not ends the call with an error after the cleanup chain has released what
      was acquired. Each successful read stores its pointer, even when the buffer is then
      rejected and released; a length is stored only once its buffer passed the size check. */
  method ReadCredentials(s: Security, store: ResourceStore, ca: Fetch, cert: Fetch, key: Fetch)
    returns (ret: WicedResult)
    requires !s.hasCaCert
    modifies s, store
    ensures ret == (if Usable(ca) && Usable(cert) && Usable(key) then Success else Error)
    ensures store.ops == old(store.ops) + CredentialOps(ca, cert, key)
    ensures s.hasCaCert == ca.ok
    ensures s.hasCert == (old(s.hasCert) || (Usable(ca) && cert.ok))
    ensures s.hasKey == (old(s.hasKey) || (Usable(ca) && Usable(cert) && key.ok))
    ensures s.caCertLen == (if Usable(ca) then ca.size else old(s.caCertLen))
    ensures s.certLen == (if Usable(ca) && Usable(cert) then cert.size else old(s.certLen))
    ensures s.keyLen == (if Usable(ca) && Usable(cert) && Usable(key) then key.size else old(s.keyLen))
  {
    var ok, size := store.Get(RootCa, ca);
    if !ok {
      return Error;
    }
    s.hasCaCert := true;
    if size < MIN_CREDENTIAL_SIZE {
      store.Free(RootCa);
      return Error;
    }
    s.caCertLen := size;

    ok, size := store.Get(ClientCert, cert);
    if !ok {
      store.Free(RootCa);
      return Error;
    }
    s.hasCert := true;
    if size < MIN_CREDENTIAL_SIZE {
      store.Free(ClientCert);
      store.Free(RootCa);
      return Error;
    }
    s.certLen := size;

    ok, size := store.Get(PrivateKey, key);
    if !ok {
      store.Free(ClientCert);
      store.Free(RootCa);
      return Error;
    }
    s.hasKey := true;
    if size < MIN_CREDENTIAL_SIZE {
      store.Free(PrivateKey);
      store.Free(ClientCert);
      store.Free(RootCa);
      return Error;
    }
    s.keyLen := size;
    return Success;
  }

  /** get_credentials_from_resources: nothing is read and nothing in `s` changes when the CA
      pointer is already set; otherwise the credentials are read as ReadCredentials says. */
  method GetCredentialsFromResources(s: Security, store: ResourceStore, ca: Fetch, cert: Fetch, key: Fetch)
    returns (ret: WicedResult)
    modifies s, store
    ensures old(s.hasCaCert) ==>
              && ret == Success && store.ops == old(store.ops)
              && s.hasCaCert && s.hasCert == old(s.hasCert) && s.hasKey == old(s.hasKey)
              && s.caCertLen == old(s.caCertLen) && s.certLen == old(s.certLen) && s.keyLen == old(s.keyLen)
    ensures !old(s.hasCaCert) ==>
              && ret == (if Usable(ca) && Usable(cert) && Usable(key) then Success else Error)
              && store.ops == old(store.ops) + CredentialOps(ca, cert, key)
    ensures !old(s.hasCaCert) ==>
              && s.hasCaCert == ca.ok
              && s.hasCert == (old(s.hasCert) || (Usable(ca) && cert.ok))
              && s.hasKey == (old(s.hasKey) || (Usable(ca) && Usable(cert) && key.ok))
    ensures !old(s.hasCaCert) ==>
              && s.caCertLen == (if Usable(ca) then ca.size else old(s.caCertLen))
              && s.certLen == (if Usable(ca) && Usable(cert) then cert.size else old(s.certLen))
              && s.keyLen == (if Usable(ca) && Usable(cert) && Usable(key) then key.size else old(s.keyLen))
  {
    if s.hasCaCert {
      return Success;
    }
    ret := ReadCredentials(s, store, ca, cert, key);
  }

  /** The arguments of IOTCL_CreateAckStringAndDestroyEvent: success flag and message (None for NULL). */
  datatype AckRequest = AckRequest(success: bool, message: Option<string>)

  const OTA_NOT_SUPPORTED: string := "OTA not supported"
  const LEGACY_NOT_SUPPORTED: string := "Back end version 1.0 not supported by the app"
  const NOT_IMPLEMENTED: string := "Not implemented"

  /** on_ota: the acknowledgement is never a success; with a download URL it says OTA is
      not supported, else with a legacy command it says the old back end is not supported,
      else it carries no message. It is sent when the library could build it. */
  method OnOta(hasUrl: bool, hasCommand: bool, ackCreated: bool) returns (req: AckRequest, sent: bool)
    ensures !req.success && sent == ackCreated
    ensures hasUrl ==> req.message == Some(OTA_NOT_SUPPORTED)
    ensures !hasUrl && hasCommand ==> req.message == Some(LEGACY_NOT_SUPPORTED)
    ensures !hasUrl && !hasCommand ==> req.message == None
  {
    var message: Option<string> := None;
    var success := false;
    if hasUrl {
      message := Some(OTA_NOT_SUPPORTED);
    } else {
      if hasCommand {
        message := Some(LEGACY_NOT_SUPPORTED);
      }
    }
    req := AckRequest(success, message);
    sent := ackCreated;
  }

  /** on_command: the acknowledgement always says the command is not implemented, and is
      sent when the library could build it. */
  method OnCommand(ackCreated: bool) returns (req: AckRequest, sent: bool)
    ensures req == AckRequest(false, Some(NOT_IMPLEMENTED)) && sent == ackCreated
  {
    req := AckRequest(false, Some(NOT_IMPLEMENTED));
    sent := ackCreated;
  }
}
