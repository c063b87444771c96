/**
 * Proxy rotation: a fixed list of proxies handed out round robin, skipping
 * those marked as failed, and the browser launch arguments that route
 * traffic through a chosen proxy. No proxy (`None`) means a direct
 * connection.
 */
module ProxyRotation {
  import opened Common

  /** What one `getNextProxy()` call yields: the proxy, if any, and the
      index the next call starts from. */
  datatype Pick = Pick(proxy: Option<string>, index: nat)

  /** The search loop of `getNextProxy()` from `index` after `attempts`
      failed proxies: take the proxy at the index, step the index round the
      ring, and stop at the first proxy not marked failed or after one full
      round. */
  function Scan(proxies: seq<string>, failed: set<string>, index: nat, attempts: nat): Pick
    requires index < |proxies| && attempts <= |proxies|
    decreases |proxies| - attempts
  {
    if attempts == |proxies| then Pick(None, index)
    else
      var next := (index + 1) % |proxies|;
      if proxies[index] !in failed then Pick(Some(proxies[index]), next)
      else Scan(proxies, failed, next, attempts + 1)
  }

  /** The place reached `j` steps round a ring of `n` from `start`. */
  function Slot(start: nat, j: nat, n: nat): nat
    requires n > 0
  {
    (start + j) % n
  }

  /** `getNextProxy()` on a list, a failed set and a current index. */
  function Rotate(proxies: seq<string>, failed: set<string>, index: nat): Pick
    requires |proxies| == 0 || index < |proxies|
  {
    if |proxies| == 0 then Pick(None, index) else Scan(proxies, failed, index, 0)
  }

  /** The meaning of the search: having skipped `attempts` failed proxies
      from `start`, it yields the first proxy not failed at some later step
      `k` of the round, leaving the index just past it; or, when none is
      left, it has gone the whole round back to `start`. */
  lemma {:induction false} ScanFinds(proxies: seq<string>, failed: set<string>, start: nat, index: nat, attempts: nat)
    returns (k: nat)
    requires start < |proxies| && index < |proxies| && attempts <= |proxies|
    requires index == Slot(start, attempts, |proxies|)
    requires forall j :: 0 <= j < attempts ==> proxies[Slot(start, j, |proxies|)] in failed
    ensures var r := Scan(proxies, failed, index, attempts);
      && r.index < |proxies|
      && (r.proxy.Some? ==>
            && attempts <= k < |proxies|
            && r.proxy.value == proxies[Slot(start, k, |proxies|)]
            && r.proxy.value !in failed
            && r.index == Slot(start, k + 1, |proxies|)
            && forall j :: 0 <= j < k ==> proxies[Slot(start, j, |proxies|)] in failed)
      && (r.proxy.None? ==>
            && r.index == start
            && forall j :: 0 <= j < |proxies| ==> proxies[Slot(start, j, |proxies|)] in failed)
    decreases |proxies| - attempts
  {
    var n := |proxies|;
    if attempts == n {
      ModuloAddMultiple(start, 1, n);
      ModuloShift(start, 0, n);
      k := 0;
    } else {
      var next := (index + 1) % n;
      ModuloAdd(start + attempts, 1, n);
      if proxies[index] !in failed {
        k := attempts;
      } else {
        k := ScanFinds(proxies, failed, start, next, attempts + 1);
      }
    }
  }

  /** A proxy handed out is on the list and not marked failed; none is
      handed out exactly when every proxy on the list is failed; the index
      stays in range, and a call that finds nothing leaves it where it was. */
  lemma RotateMeaning(proxies: seq<string>, failed: set<string>, index: nat)
    requires |proxies| == 0 || index < |proxies|
    ensures var r := Rotate(proxies, failed, index);
      && (r.proxy.Some? ==> r.proxy.value in proxies && r.proxy.value !in failed)
      && (r.proxy.None? <==> forall i :: 0 <= i < |proxies| ==> proxies[i] in failed)
      && (|proxies| > 0 ==> r.index < |proxies|)
      && (r.proxy.None? ==> r.index == index)
  {
    if |proxies| > 0 {
      var n := |proxies|;
      ModuloShift(index, 0, n);
      var k := ScanFinds(proxies, failed, index, index, 0);
      var r := Rotate(proxies, failed, index);
      if r.proxy.None? {
        forall i | 0 <= i < n
          ensures proxies[i] in failed
        {
          var j := ModuloCovers(index, i, n);
          assert Slot(index, j, n) == i;
        }
      } else {
        assert Slot(index, k, n) < n;
      }
    }
  }

  /** `k` successive `getNextProxy()` calls with the failed set unchanged. */
  function Picks(proxies: seq<string>, failed: set<string>, index: nat, k: nat): seq<Option<string>>
    requires |proxies| == 0 || index < |proxies|
    decreases k
  {
    if k == 0 then []
    else
      RotateMeaning(proxies, failed, index);
      var r := Rotate(proxies, failed, index);
      [r.proxy] + Picks(proxies, failed, r.index, k - 1)
  }

  /** With no failed proxy, successive calls hand out the list in order,
      wrapping round at the end. */
  lemma {:induction false} PicksInOrder(proxies: seq<string>, failed: set<string>, index: nat, k: nat)
    requires index < |proxies|
    requires forall i :: 0 <= i < |proxies| ==> proxies[i] !in failed
    ensures |Picks(proxies, failed, index, k)| == k
    ensures forall j :: 0 <= j < k ==> Picks(proxies, failed, index, k)[j] == Some(proxies[Slot(index, j, |proxies|)])
    decreases k
  {
    if k > 0 {
      var n := |proxies|;
      var next := (index + 1) % n;
      assert Rotate(proxies, failed, index) == Pick(Some(proxies[index]), next);
      PicksInOrder(proxies, failed, next, k - 1);
      ModuloShift(index, 0, n);
      forall j | 1 <= j < k
        ensures Picks(proxies, failed, index, k)[j] == Some(proxies[Slot(index, j, n)])
      {
        ModuloAdd(index + 1, j - 1, n);
      }
    }
  }

  /** `markProxyFailed()` ignores a falsy argument. */
  predicate Truthy(s: Option<string>)
  {
    s.Some? && s.value != ""
  }

  const HttpScheme := "http"
  const HttpPrefix := "http://"
  const ProxyServerFlag := "--proxy-server="
  const ProxyBypassArg := "--proxy-bypass-list=<-loopback>"

  /** The proxy address as a URL: `http://` is added unless it already
      starts with `http`. */
  function ProxyUrl(proxy: string): (url: string)
    ensures StartsWith(url, HttpScheme)
    ensures StartsWith(proxy, HttpScheme) ==> url == proxy
    ensures !StartsWith(proxy, HttpScheme) ==> url == HttpPrefix + proxy
  {
    if StartsWith(proxy, HttpScheme) then proxy else HttpPrefix + proxy
  }

  /** Making a URL of a URL changes nothing. */
  lemma ProxyUrlIdempotent(proxy: string)
    ensures ProxyUrl(ProxyUrl(proxy)) == ProxyUrl(proxy)
  {
  }

  /** The two arguments added for a proxy. */
  function ProxyArgs(proxy: string): (args: seq<string>)
    ensures |args| == 2 && args[1] == ProxyBypassArg
    ensures StartsWith(args[0], ProxyServerFlag) && args[0][|ProxyServerFlag|..] == ProxyUrl(proxy)
  {
    [ProxyServerFlag + ProxyUrl(proxy), ProxyBypassArg]
  }

  /** A launch argument array, held by reference: the options object is
      copied shallowly, so pushing onto its `args` pushes onto the caller's
      array. */
  class ArgList {
    var items: seq<string>

    constructor (items: seq<string>)
      ensures this.items == items
    {
      this.items := items;
    }

    method Push(item: string)
      modifies this
      ensures items == old(items) + [item]
    {
      items := items + [item];
    }
  }

  /** Launch options: the argument array, if any, and the other settings,
      which are copied as they are. */
  datatype LaunchOptions = LaunchOptions(args: Option<ArgList>, settings: map<string, string>)

  /** `configurePuppeteerWithProxy()`: with no proxy the copy is the options
      unchanged; with one, the two proxy arguments are appended to the
      caller's argument array, or to a new one when there was none. */
  method ConfigureWithProxy(options: LaunchOptions, proxy: Option<string>) returns (result: LaunchOptions)
    modifies if options.args.Some? then {options.args.value} else {}
    ensures !Truthy(proxy) ==> result == options
    ensures !Truthy(proxy) && options.args.Some? ==> options.args.value.items == old(options.args.value.items)
    ensures Truthy(proxy) ==> result.settings == options.settings && result.args.Some?
    ensures Truthy(proxy) && options.args.Some? ==>
      result.args == options.args && options.args.value.items == old(options.args.value.items) + ProxyArgs(proxy.value)
    ensures Truthy(proxy) && options.args.None? ==>
      fresh(result.args.value) && result.args.value.items == ProxyArgs(proxy.value)
  {
    result := options;
    if Truthy(proxy) {
      var url := ProxyUrl(proxy.value);
      var args: ArgList;
      if options.args.Some? {
        args := options.args.value;
      } else {
        args := new ArgList([]);
        result := result.(args := Some(args));
      }
      args.Push(ProxyServerFlag + url);
      args.Push(ProxyBypassArg);
    }
  }

  class ProxyRotation {
    const proxies: seq<string>
    var currentIndex: nat
    var failedProxies: set<string>

    ghost predicate Valid()
      reads this
    {
      |proxies| == 0 || currentIndex < |proxies|
    }

    /** `config.proxies`, or no proxies; the rotation starts at the first. */
    constructor (configured: Option<seq<string>>)
      ensures Valid()
      ensures proxies == (if configured.Some? then configured.value else [])
      ensures currentIndex == 0 && failedProxies == {}
    {
      proxies := if configured.Some? then configured.value else [];
      currentIndex := 0;
      failedProxies := {};
    }

    /** `getNextProxy()`: the search loop, proved to do what `Rotate`
        describes. */
    method GetNextProxy() returns (proxy: Option<string>)
      requires Valid()
      modifies this
      ensures Valid()
      ensures Pick(proxy, currentIndex) == Rotate(proxies, failedProxies, old(currentIndex))
      ensures failedProxies == old(failedProxies)
    {
      if |proxies| == 0 {
        return None;
      }
      ghost var start := currentIndex;
      var attempts := 0;
      while attempts < |proxies|
        invariant 0 <= attempts <= |proxies| && currentIndex < |proxies|
        invariant failedProxies == old(failedProxies)
        invariant Scan(proxies, failedProxies, currentIndex, attempts) == Scan(proxies, failedProxies, start, 0)
        decreases |proxies| - attempts
      {
        var candidate := proxies[currentIndex];
        ghost var at := currentIndex;
        currentIndex := (currentIndex + 1) % |proxies|;
        if candidate !in failedProxies {
          assert Scan(proxies, failedProxies, at, attempts) == Pick(Some(candidate), currentIndex);
          return Some(candidate);
        }
        attempts := attempts + 1;
      }
      proxy := None;
    }

    /** `markProxyFailed()`: a truthy proxy joins the failed set. */
    method MarkProxyFailed(proxy: Option<string>)
      requires Valid()
      modifies this
      ensures Valid()
      ensures failedProxies == if Truthy(proxy) then old(failedProxies) + {proxy.value} else old(failedProxies)
      ensures currentIndex == old(currentIndex)
    {
      if Truthy(proxy) {
        failedProxies := failedProxies + {proxy.value};
      }
    }

    /** `resetFailedProxies()`: every proxy is usable again. */
    method ResetFailedProxies()
      requires Valid()
      modifies this
      ensures Valid()
      ensures failedProxies == {} && currentIndex == old(currentIndex)
    {
      failedProxies := {};
    }
  }

  /** After a reset the next call hands out the proxy at the current index. */
  lemma ResetThenNext(proxies: seq<string>, index: nat)
    requires index < |proxies|
    ensures Rotate(proxies, {}, index) == Pick(Some(proxies[index]), (index + 1) % |proxies|)
  {
  }

  /** A proxy marked failed is not handed out again until a reset. */
  lemma FailedNotHandedOut(proxies: seq<string>, failed: set<string>, index: nat, p: string)
    requires |proxies| == 0 || index < |proxies|
    requires p in failed
    ensures Rotate(proxies, failed, index).proxy != Some(p)
  {
    RotateMeaning(proxies, failed, index);
  }
}
