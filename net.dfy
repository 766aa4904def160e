/** utils/net.py: the domain key that every crawl-rule lookup compares against. */
module Net {
  import opened Text

  /** `get_domain_url(url)`: with "://" present, `url.split("://")[1].split("/")[0]`;
      otherwise `url.split("/")[0]`. */
  function GetDomainUrl(url: string): (r: string)
    ensures !ContainsChar(r, '/')
  {
    BeforeFirstCharFree(if Contains(url, "://") then BeforeFirst(AfterFirst(url, "://"), "://") else url, '/');
    if Contains(url, "://") then BeforeFirst(BeforeFirst(AfterFirst(url, "://"), "://"), "/")
    else BeforeFirst(url, "/")
  }

  /** A text without '/' cannot contain "://". */
  lemma SlashFreeHasNoSchemeSep(s: string)
    requires !ContainsChar(s, '/')
    ensures !Contains(s, "://")
  {
    if Contains(s, "://") {
      ContainsCharOf(s, "://", 1);
    }
  }

  /** The result holds neither "/" nor "://". */
  lemma DomainHasNoSeparators(url: string)
    ensures !Contains(GetDomainUrl(url), "/")
    ensures !Contains(GetDomainUrl(url), "://")
  {
    var r := GetDomainUrl(url);
    BeforeFirstCharFree(r, '/');
    SlashFreeHasNoSchemeSep(r);
  }

  /** Applying the function to its own result changes nothing. */
  lemma {:induction false} GetDomainUrlIdempotent(url: string)
    ensures GetDomainUrl(GetDomainUrl(url)) == GetDomainUrl(url)
  {
    var r := GetDomainUrl(url);
    DomainHasNoSeparators(url);
    BeforeFirstAbsent(r, "/");
  }

  /** With "://" present: the result is the text after the first "://", cut at the
      earliest "/" or "://" (or running to the end). */
  lemma {:induction false} GetDomainUrlWithScheme(url: string)
    requires Contains(url, "://")
    ensures var rest := AfterFirst(url, "://");
            var r := GetDomainUrl(url);
            StartsWith(rest, r)
            && (r == rest || StartsWith(rest[|r|..], "/") || StartsWith(rest[|r|..], "://"))
            && forall j :: 0 <= j < |r| ==> rest[j] != '/' && !OccursAt(rest, "://", j)
  {
    var rest := AfterFirst(url, "://");
    var a := BeforeFirst(rest, "://");
    var r := BeforeFirst(a, "/");
    assert r == GetDomainUrl(url);
    forall j | 0 <= j < |r| ensures rest[j] != '/' && !OccursAt(rest, "://", j) {
      assert rest[j] == r[j];
      match IndexOf(rest, "://")
      case Some(i) =>
        assert |a| == i;
      case None =>
        assert !Contains(rest, "://");
    }
    if r != a {
      var i := IndexOf(a, "/").value;
      assert a[i..i + 1] == "/";
      assert rest[|r|..][..1] == a[i..i + 1];
    } else if a != rest {
      var j := IndexOf(rest, "://").value;
      assert rest[j..j + 3] == "://";
      assert rest[|r|..][..3] == rest[j..j + 3];
    }
  }

  /** Without "://": the text before the first "/", or the whole text. */
  lemma {:induction false} GetDomainUrlWithoutScheme(url: string)
    requires !Contains(url, "://")
    ensures var r := GetDomainUrl(url);
            StartsWith(url, r) && (r == url || url[|r|] == '/')
  {
    var r := GetDomainUrl(url);
    if r != url {
      var i := IndexOf(url, "/").value;
      assert url[i..i + 1] == "/";
    }
  }

  /** A URL built as scheme "://" host path resolves to the host, whenever the scheme has
      no ':', the host has no '/' and does not end in ':', and the path is empty or
      starts with '/'. The host keeps any port or user info: this is not host extraction
      as section 3.2.2 of RFC 3986 defines it. */
  lemma {:induction false} GetDomainUrlOfParts(scheme: string, host: string, path: string)
    requires !ContainsChar(scheme, ':')
    requires !ContainsChar(host, '/') && (host == [] || host[|host| - 1] != ':')
    requires path == [] || path[0] == '/'
    ensures GetDomainUrl(scheme + "://" + host + path) == host
  {
    var url := scheme + "://" + host + path;
    assert url == scheme + "://" + (host + path);
    AfterScheme(scheme, host + path);
    HostOfRest(host, path);
  }

  lemma AfterScheme(scheme: string, rest: string)
    requires !ContainsChar(scheme, ':')
    ensures Contains(scheme + "://" + rest, "://")
    ensures AfterFirst(scheme + "://" + rest, "://") == rest
  {
    var url := scheme + "://" + rest;
    var n := |scheme|;
    assert url[n..n + 3] == "://";
    assert OccursAt(url, "://", n);
    forall i | 0 <= i < n ensures url[i] != "://"[0] {
      assert url[i] == scheme[i];
    }
    IndexOfFirst(url, "://", n);
    assert url[n + 3..] == rest;
  }

  lemma HostOfRest(host: string, path: string)
    requires !ContainsChar(host, '/') && (host == [] || host[|host| - 1] != ':')
    requires path == [] || path[0] == '/'
    ensures BeforeFirst(BeforeFirst(host + path, "://"), "/") == host
  {
    var rest := host + path;
    var a := BeforeFirst(rest, "://");
    match IndexOf(rest, "://")
    case Some(j) =>
      SchemeSepAfterHost(host, path, j);
      assert a == rest[..j];
      if j == |host| {
        assert a == host;
        BeforeFirstAbsentChar(host, '/');
      } else {
        assert a[|host|] == '/' && a[..|host|] == host;
        FirstSlash(a, host);
      }
    case None =>
      assert a == rest;
      if path == [] {
        assert rest == host;
        BeforeFirstAbsentChar(host, '/');
      } else {
        assert rest[|host|] == '/' && rest[..|host|] == host;
        FirstSlash(rest, host);
      }
  }

  lemma SchemeSepAfterHost(host: string, path: string, j: nat)
    requires !ContainsChar(host, '/') && (host == [] || host[|host| - 1] != ':')
    requires OccursAt(host + path, "://", j)
    ensures j >= |host|
  {
    var rest := host + path;
    assert rest[j..j + 3][0] == ':' && rest[j..j + 3][1] == '/';
    assert forall k | 0 <= k < |host| :: rest[k] == host[k];
  }

  lemma BeforeFirstAbsentChar(s: string, c: char)
    requires !ContainsChar(s, c)
    ensures BeforeFirst(s, [c]) == s
  {
    AbsentByFirstChar(s, [c]);
  }

  lemma FirstSlash(a: string, host: string)
    requires |host| < |a| && a[|host|] == '/' && a[..|host|] == host
    requires !ContainsChar(host, '/')
    ensures BeforeFirst(a, "/") == host
  {
    assert a[|host|..|host| + 1] == "/";
    forall i | 0 <= i < |host| ensures a[i] != "/"[0] {
      assert a[i] == host[i];
    }
    IndexOfFirst(a, "/", |host|);
  }

  /** The port and a slash-free query stay in the key. */
  lemma GetDomainUrlKeepsPortAndQuery()
    ensures GetDomainUrl("https" + "://" + "h:8080?q") == "h:8080?q"
  {
    assert !ContainsChar("https", ':');
    assert !ContainsChar("h:8080?q", '/');
    GetDomainUrlOfParts("https", "h:8080?q", "");
    assert "https" + "://" + "h:8080?q" + "" == "https" + "://" + "h:8080?q";
  }

  /** The fallback key resolves to itself, so the resolver's "default" lookup can match. */
  lemma GetDomainUrlOfDefault()
    ensures GetDomainUrl("default") == "default"
  {
    assert !ContainsChar("default", '/');
    AbsentByFirstChar("default", "/");
    SlashFreeHasNoSchemeSep("default");
  }
}
