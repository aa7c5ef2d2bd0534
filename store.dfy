/** The store handle of src/store.rs: resolving a parsed store URL to a
    backend and a base path, and joining that base with an object key. URL
    parsing and the backends themselves are outside the model: a URL arrives
    already split into scheme, host and path, and whether a backend client can
    be built is an input. */
module Store {
  import opened Common

  /** A parsed store URL. */
  datatype Url = Url(scheme: string, host: Option<string>, path: string)

  /** The two backends a store can be built on. */
  datatype Backend = GoogleCloudStorage(bucket: string) | LocalFileSystem(root: string)

  /** An immutable store handle: the backend and the base path that every key
      is joined onto. */
  datatype Store = Store(backend: Backend, base: string)

  datatype StoreError =
    | NoBucket                          // a gs:// URL without a host
    | UnsupportedScheme(scheme: string) // any scheme but s3, gs and file
    | ClientFailed(backend: Backend)    // the backend client could not be built

  /** Resolving a URL builds a store, hits the `unimplemented!` panic of the
      s3 branch, or fails with an error. */
  datatype Resolution = Resolved(store: Store) | Unimplemented | Failed(error: StoreError)

  /** The base path of a gs:// store: the URL path with one leading '/'
      removed, and only one. */
  function GsBase(path: string): (base: string)
    ensures |path| > 0 && path[0] == '/' ==> ['/'] + base == path
    ensures (|path| == 0 || path[0] != '/') ==> base == path
  {
    if |path| > 0 && path[0] == '/' then path[1..] else path
  }

  /** Resolve a parsed URL. `builds(b)` says whether the client for backend b
      can be constructed (credentials, an existing root directory, ...). */
  function NewStore(url: Url, builds: Backend -> bool): (r: Resolution)
    ensures r.Unimplemented? <==> url.scheme == "s3"
    ensures r == Failed(NoBucket) <==> url.scheme == "gs" && url.host.None?
    ensures r == Failed(UnsupportedScheme(url.scheme)) <==> url.scheme !in {"s3", "gs", "file"}
    ensures r.Failed? && r.error.UnsupportedScheme? ==> r.error.scheme == url.scheme
    ensures r.Failed? && r.error.ClientFailed? ==> !builds(r.error.backend)
    ensures r.Resolved? ==> builds(r.store.backend)
    ensures r.Resolved? && url.scheme == "gs" ==>
              r.store.backend.GoogleCloudStorage? && url.host == Some(r.store.backend.bucket)
              && r.store.base == GsBase(url.path)
    ensures r.Resolved? && url.scheme == "file" ==>
              r.store == Store(LocalFileSystem(url.path), "")
    ensures r.Resolved? ==> url.scheme in {"gs", "file"}
    ensures url.scheme == "gs" && url.host.Some? ==>
              (r.Resolved? <==> builds(GoogleCloudStorage(url.host.value)))
    ensures url.scheme == "file" ==> (r.Resolved? <==> builds(LocalFileSystem(url.path)))
    ensures r.Failed? && r.error.ClientFailed? ==>
              r.error.backend == (if url.scheme == "gs" then GoogleCloudStorage(url.host.value)
                                  else LocalFileSystem(url.path))
  {
    if url.scheme == "s3" then
      Unimplemented
    else if url.scheme == "gs" then
      match url.host
      case None => Failed(NoBucket)
      case Some(bucket) =>
        var backend := GoogleCloudStorage(bucket);
        if builds(backend) then Resolved(Store(backend, GsBase(url.path)))
        else Failed(ClientFailed(backend))
    else if url.scheme == "file" then
      var backend := LocalFileSystem(url.path);
      if builds(backend) then Resolved(Store(backend, ""))
      else Failed(ClientFailed(backend))
    else
      Failed(UnsupportedScheme(url.scheme))
  }

  /** The key with every leading '/' removed. */
  function TrimLeadingSlashes(key: string): (t: string)
    ensures |t| <= |key| && (t == [] || t[0] != '/')
  {
    if |key| > 0 && key[0] == '/' then TrimLeadingSlashes(key[1..]) else key
  }

  /** What trimming leaves never starts with '/', is a suffix of the key, and
      everything cut off was '/'. */
  lemma {:induction false} TrimShape(key: string)
    ensures var t := TrimLeadingSlashes(key);
      && |t| <= |key| && key[|key| - |t|..] == t
      && (forall i :: 0 <= i < |key| - |t| ==> key[i] == '/')
      && (t == [] || t[0] != '/')
    decreases |key|
  {
    if |key| > 0 && key[0] == '/' {
      TrimShape(key[1..]);
      var t := TrimLeadingSlashes(key);
      assert key[1..][|key| - 1 - |t|..] == key[|key| - |t|..];
      forall i | 0 <= i < |key| - |t|
        ensures key[i] == '/'
      {
        if i > 0 {
          assert key[i] == key[1..][i - 1];
        }
      }
    }
  }

  /** The storage path of a key under a base: the base, one '/', and the key
      without its leading slashes (before the backend's own normalisation of
      the string). */
  function JoinPath(base: string, key: string): (p: string)
    ensures base < p
  {
    base + "/" + TrimLeadingSlashes(key)
  }

  /** The trimmed key follows the base and its '/'. */
  lemma JoinPathAfterBase(base: string, key: string)
    ensures |JoinPath(base, key)| > |base|
    ensures JoinPath(base, key)[..|base|] == base && JoinPath(base, key)[|base|] == '/'
    ensures JoinPath(base, key)[|base| + 1..] == TrimLeadingSlashes(key)
  {
    var t := TrimLeadingSlashes(key);
    assert JoinPath(base, key) == base + ("/" + t);
  }

  /** The joined path starts with the base and one '/'; what follows is a
      suffix of the key that does not start with '/', and only slashes of
      the key were dropped. */
  lemma JoinPathShape(base: string, key: string)
    ensures var p := JoinPath(base, key);
      && |p| > |base| && p[..|base|] == base && p[|base|] == '/'
      && (p[|base| + 1..] == [] || p[|base| + 1] != '/')
      && |p| - |base| - 1 <= |key| && key[|key| - (|p| - |base| - 1)..] == p[|base| + 1..]
      && forall i :: 0 <= i < |key| - (|p| - |base| - 1) ==> key[i] == '/'
  {
    TrimShape(key);
    JoinPathAfterBase(base, key);
  }

  /** What `object_reader` yields for a key: the backend's answer for the
      joined path. `get` stands for the backend's `get`. */
  function ObjectReader<T>(store: Store, get: string -> OpenOutcome<T>, key: string): (r: OpenOutcome<T>)
    ensures (key == [] || key[0] != '/') ==> r == get(store.base + "/" + key)
  {
    get(JoinPath(store.base, key))
  }

  /** A run of n slashes. */
  function Slashes(n: nat): (s: string)
    ensures |s| == n && forall i :: 0 <= i < n ==> s[i] == '/'
  {
    seq(n, _ => '/')
  }

  /** Trimming is idempotent. */
  lemma TrimIdempotent(key: string)
    ensures TrimLeadingSlashes(TrimLeadingSlashes(key)) == TrimLeadingSlashes(key)
  {
    TrimShape(key);
  }

  /** Trimming removes exactly the maximal run of leading slashes:
      key == Slashes(k) + trimmed for some k. */
  lemma TrimSplits(key: string)
    ensures |TrimLeadingSlashes(key)| <= |key|
    ensures key == Slashes(|key| - |TrimLeadingSlashes(key)|) + TrimLeadingSlashes(key)
  {
    TrimShape(key);
    var t := TrimLeadingSlashes(key);
    var k := |key| - |t|;
    assert key == key[..k] + key[k..];
    assert key[..k] == Slashes(k);
  }

  /** Extra leading slashes on a key do not change the joined path. */
  lemma {:induction false} JoinPathIgnoresLeadingSlashes(base: string, key: string, n: nat)
    ensures JoinPath(base, Slashes(n) + key) == JoinPath(base, key)
  {
    if n > 0 {
      var s := Slashes(n) + key;
      assert s[0] == '/';
      assert s[1..] == Slashes(n - 1) + key;
      JoinPathIgnoresLeadingSlashes(base, key, n - 1);
    } else {
      assert Slashes(n) + key == key;
    }
  }

  /** Opening "/k", "//k", ... reads the same object as opening "k". */
  lemma ObjectReaderIgnoresLeadingSlashes<T>(store: Store, get: string -> OpenOutcome<T>, key: string, n: nat)
    ensures ObjectReader(store, get, Slashes(n) + key) == ObjectReader(store, get, key)
  {
    JoinPathIgnoresLeadingSlashes(store.base, key, n);
  }

  /** A key that does not start with '/' is placed after `base + "/"`
      unchanged. */
  lemma JoinPathPlainKey(base: string, key: string)
    requires key == [] || key[0] != '/'
    ensures JoinPath(base, key) == base + "/" + key
  {
  }

  /** Two keys join to the same path under one base exactly when they agree
      once their leading slashes are trimmed. */
  lemma JoinPathSameIff(base: string, k1: string, k2: string)
    ensures JoinPath(base, k1) == JoinPath(base, k2)
            <==> TrimLeadingSlashes(k1) == TrimLeadingSlashes(k2)
  {
    if JoinPath(base, k1) == JoinPath(base, k2) {
      JoinPathAfterBase(base, k1);
      JoinPathAfterBase(base, k2);
    }
  }

  /** A file:// store has an empty base, so every key is looked up at "/"
      followed by the trimmed key. */
  lemma FileStorePath(url: Url, builds: Backend -> bool, key: string)
    requires url.scheme == "file" && builds(LocalFileSystem(url.path))
    ensures NewStore(url, builds).Resolved?
    ensures JoinPath(NewStore(url, builds).store.base, key) == "/" + TrimLeadingSlashes(key)
  {
    assert url.scheme != "s3" && url.scheme != "gs";
    var r := NewStore(url, builds);
    assert r.store.base == "";
    assert "" + "/" == "/";
  }

  /** A gs:// base keeps every '/' after the first: "//a" becomes "/a", which
      trimming would have turned into "a". */
  lemma GsBaseStripsOnce()
    ensures GsBase("//a") == "/a"
    ensures TrimLeadingSlashes("//a") == "a"
    ensures JoinPath("", "///x") == "/x"
  {
    assert "//a"[1..] == "/a";
    assert "/a"[1..] == "a";
    assert "///x"[1..] == "//x";
    assert "//x"[1..] == "/x";
    assert "/x"[1..] == "x";
  }
}
