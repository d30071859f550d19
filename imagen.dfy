/** `productoService`: how a product's stored image path becomes a URL, and
    how an upload names its file. */
module Imagen {
  import opened Wrappers
  import opened Text

  /** The configured API base (`API_URL`). */
  const ApiUrl: string := "https://" + Host + "/api"

  /** `s.replace(pat, rep)` with a string pattern: the first occurrence only. */
  function ReplaceFirst(s: string, pat: string, rep: string): string
    decreases |s|
  {
    if StartsWith(s, pat) then rep + s[|pat|..]
    else if s == [] then []
    else [s[0]] + ReplaceFirst(s[1..], pat, rep)
  }

  /** The server root: the API base with its first `/api` removed. */
  function BaseUrl(apiUrl: string): string
  {
    ReplaceFirst(apiUrl, "/api", "")
  }

  /** Text without the pattern's first character is copied unchanged. */
  lemma {:induction false} ReplaceFirstSkips(p: string, q: string, pat: string, rep: string)
    requires pat != [] && pat[0] !in p
    ensures ReplaceFirst(p + q, pat, rep) == p + ReplaceFirst(q, pat, rep)
    decreases |p|
  {
    if p != [] {
      assert |pat| > |p + q| || (p + q)[..|pat|] != pat by {
        if |pat| <= |p + q| {
          assert (p + q)[..|pat|][0] == p[0];
        }
      }
      assert (p + q)[1..] == p[1..] + q;
      assert pat[0] !in p[1..];
      ReplaceFirstSkips(p[1..], q, pat, rep);
      assert ReplaceFirst(p + q, pat, rep) == [p[0]] + ReplaceFirst(p[1..] + q, pat, rep);
      assert [p[0]] + (p[1..] + ReplaceFirst(q, pat, rep)) == p + ReplaceFirst(q, pat, rep);
    } else {
      assert p + q == q;
    }
  }

  lemma {:induction false} ReplaceFirstStep(s: string, pat: string, rep: string)
    requires 2 <= |s| && 2 <= |pat| && s[1] != pat[1]
    ensures ReplaceFirst(s, pat, rep) == [s[0]] + ReplaceFirst(s[1..], pat, rep)
  {
    assert |pat| > |s| || s[..|pat|][1] != pat[1];
  }

  /** The host part of the configured base. */
  const Host: string := "ventaveloz-backend.onrender.com"

  /** Past the `//` of the scheme, the first `/api` is the one after the host. */
  lemma {:induction false} TailReplace(h: string)
    requires h != [] && h[0] != 'a' && '/' !in h
    ensures ReplaceFirst("//" + h + "/api", "/api", "") == "//" + h
  {
    var tail := "//" + h + "/api";
    var mid := "/" + h + "/api";
    assert ReplaceFirst(h + "/api", "/api", "") == h by {
      ReplaceFirstSkips(h, "/api", "/api", "");
      assert ReplaceFirst("/api", "/api", "") == "";
      assert h + "" == h;
    }
    assert ReplaceFirst(mid, "/api", "") == "/" + h by {
      assert mid[1] == h[0];
      ReplaceFirstStep(mid, "/api", "");
      assert mid[1..] == h + "/api";
    }
    assert ReplaceFirst(tail, "/api", "") == "/" + ("/" + h) by {
      ReplaceFirstStep(tail, "/api", "");
      assert tail[1..] == mid;
    }
    assert "/" + ("/" + h) == "//" + h;
  }

  /** The server root of `https://<h>/api` is `https://<h>`. */
  lemma {:induction false} BaseUrlDe(h: string)
    requires h != [] && h[0] != 'a' && '/' !in h
    ensures BaseUrl("https://" + h + "/api") == "https://" + h
  {
    var tail := "//" + h + "/api";
    var full := "https://" + h + "/api";
    assert full == "https:" + tail;
    assert ReplaceFirst("https:" + tail, "/api", "") == "https:" + ("//" + h) by {
      assert '/' !in "https:";
      ReplaceFirstSkips("https:", tail, "/api", "");
      TailReplace(h);
    }
    assert "https:" + ("//" + h) == "https://" + h;
  }

  /** With the configured base, images are served from the server root
      `https://ventaveloz-backend.onrender.com`. */
  lemma {:induction false} BaseUrlValue()
    ensures BaseUrl(ApiUrl) == "https://" + Host
  {
    assert Host[0] == 'v';
    BaseUrlDe(Host);
  }

  // ---- obtenerUrlImagen ----

  predicate EsUrlCompleta(s: string)
  {
    StartsWith(s, "http://") || StartsWith(s, "https://")
  }

  /** `/(https?:\/\/[^\s]+)/` can match at index `i`. */
  predicate UrlEn(s: string, i: nat)
  {
    i <= |s| &&
    ((StartsWith(s[i..], "https://") && i + 8 < |s| && !IsSpace(s[i + 8]))
     || (StartsWith(s[i..], "http://") && i + 7 < |s| && !IsSpace(s[i + 7])))
  }

  /** The leftmost match at index `i` or later; the greedy `[^\s]+` takes
      the whole run of non-blank characters. */
  function PrimeraUrl(s: string, i: nat): Option<string>
    requires i <= |s|
    decreases |s| - i
  {
    if UrlEn(s, i) then Some(NonSpaceRun(s[i..]))
    else if i == |s| then None
    else PrimeraUrl(s, i + 1)
  }

  /** `obtenerUrlImagen`: nothing for a missing or empty path; a full URL
      as it is; a Cloudinary path reduced to the URL inside it; any other
      path appended to the server root. */
  function ObtenerUrlImagen(path: Option<string>, apiUrl: string): Option<string>
  {
    if path.None? || path.value == "" then None
    else Some(Resolver(Trim(path.value), apiUrl))
  }

  /** The URL for a trimmed, non-empty path `t`. */
  function Resolver(t: string, apiUrl: string): string
  {
    if EsUrlCompleta(t) then t
    else if Contains(t, "cloudinary.com") then
      match PrimeraUrl(t, 0)
      case Some(u) => u
      case None => t
    else BaseUrl(apiUrl) + "/" + t
  }

  /** What the extraction finds: the leftmost place where a match starts,
      and from there the URL scheme and every following non-blank character. */
  lemma {:induction false} PrimeraUrlSpec(s: string, i: nat)
    requires i <= |s|
    ensures match PrimeraUrl(s, i)
      case Some(u) =>
        && (exists k :: i <= k <= |s| && UrlEn(s, k) && u == NonSpaceRun(s[k..])
                        && forall j :: i <= j < k ==> !UrlEn(s, j))
        && EsUrlCompleta(u) && NoSpace(u)
      case None => forall j :: i <= j <= |s| ==> !UrlEn(s, j)
    decreases |s| - i
  {
    if UrlEn(s, i) {
      UrlEnIsUrl(s, i);
    } else if i < |s| {
      PrimeraUrlSpec(s, i + 1);
    }
  }

  lemma {:induction false} UrlEnIsUrl(s: string, i: nat)
    requires UrlEn(s, i)
    ensures EsUrlCompleta(NonSpaceRun(s[i..])) && NoSpace(NonSpaceRun(s[i..]))
  {
    var t := s[i..];
    EsquemasSinEspacios();
    if StartsWith(t, "https://") && i + 8 < |s| && !IsSpace(s[i + 8]) {
      assert t[8] == s[i + 8];
      RunConPrefijo(t, "https://");
    } else {
      assert t[7] == s[i + 7];
      RunConPrefijo(t, "http://");
    }
  }

  lemma {:induction false} EsquemasSinEspacios()
    ensures NoSpace("https://") && NoSpace("http://")
  {
  }

  /** A non-blank prefix followed by a non-blank character stays in the run. */
  lemma {:induction false} RunConPrefijo(t: string, p: string)
    requires StartsWith(t, p) && NoSpace(p) && |p| < |t| && !IsSpace(t[|p|])
    ensures StartsWith(NonSpaceRun(t), p)
  {
    var r := NonSpaceRun(t);
    assert |r| > |p| by {
      forall j | 0 <= j <= |p| ensures !IsSpace(t[j]) {
        if j < |p| {
          assert t[j] == p[j];
        }
      }
    }
    assert r[..|p|] == t[..|p|];
  }

  /** A missing or empty path gives no URL; any other path gives one. */
  lemma {:induction false} ObtenerNulo(path: Option<string>, apiUrl: string)
    ensures ObtenerUrlImagen(path, apiUrl).None? <==> path.None? || path.value == ""
  {
  }

  /** White space around the path never changes the URL, unless the path
      is nothing but white space. */
  lemma {:induction false} EspaciosNoImportan(s: string, apiUrl: string)
    requires Trim(s) != ""
    ensures ObtenerUrlImagen(Some(s), apiUrl) == ObtenerUrlImagen(Some(Trim(s)), apiUrl)
  {
    TrimIdempotent(s);
  }

  lemma {:induction false} TrimAllSpace(s: string)
    requires AllSpace(s)
    ensures Trim(s) == ""
  {
  }

  /** A path made only of white space is truthy, so it yields the bare
      server root. */
  lemma {:induction false} SoloEspacios(s: string)
    requires s != "" && AllSpace(s)
    ensures ObtenerUrlImagen(Some(s), ApiUrl) == Some("https://" + Host + "/")
  {
    TrimAllSpace(s);
    BaseUrlValue();
    assert !Contains("", "cloudinary.com") by {
      assert !OccursAt("", "cloudinary.com", 0);
    }
    assert BaseUrl(ApiUrl) + "/" + "" == "https://" + Host + "/";
  }

  /** A local path is served from the server root. */
  lemma {:induction false} RutaLocal(s: string)
    requires s != "" && !EsUrlCompleta(Trim(s)) && !Contains(Trim(s), "cloudinary.com")
    ensures ObtenerUrlImagen(Some(s), ApiUrl) == Some("https://" + Host + "/" + Trim(s))
  {
    BaseUrlValue();
  }

  /** A full URL with no blank at either end resolves to itself. */
  lemma {:induction false} UrlResuelta(u: string, apiUrl: string)
    requires u != [] && EsUrlCompleta(u) && !IsSpace(u[|u| - 1])
    ensures ObtenerUrlImagen(Some(u), apiUrl) == Some(u)
  {
    assert u[0] == 'h';
    TrimFixed(u);
  }

  /** A path with a server root in front is a full URL ending where the path does. */
  lemma {:induction false} UrlLocal(b: string, t: string)
    requires EsUrlCompleta(b) && (t == [] || !IsSpace(t[|t| - 1]))
    ensures var u := b + "/" + t; u != [] && EsUrlCompleta(u) && !IsSpace(u[|u| - 1])
  {
    var u := b + "/" + t;
    assert u[..|b|] == b;
    if StartsWith(b, "http://") {
      assert u[..7] == b[..7];
    } else {
      assert u[..8] == b[..8];
    }
    assert u[|u| - 1] == if t == [] then '/' else t[|t| - 1];
  }

  /** Resolving an already resolved URL gives it back, for any server root
      that is itself a full URL (as the configured one is). */
  lemma {:induction false} ObtenerIdempotente(path: Option<string>, apiUrl: string)
    requires EsUrlCompleta(BaseUrl(apiUrl))
    ensures ObtenerUrlImagen(path, apiUrl).Some? ==>
      ObtenerUrlImagen(ObtenerUrlImagen(path, apiUrl), apiUrl) == ObtenerUrlImagen(path, apiUrl)
  {
    if path.Some? && path.value != "" {
      var t := Trim(path.value);
      assert ObtenerUrlImagen(path, apiUrl) == Some(Resolver(t, apiUrl));
      TrimIdempotent(path.value);
      ResolverFijo(t, apiUrl);
    }
  }

  /** What a trimmed path resolves to resolves to itself. */
  lemma {:induction false} ResolverFijo(t: string, apiUrl: string)
    requires Trim(t) == t && EsUrlCompleta(BaseUrl(apiUrl))
    ensures ObtenerUrlImagen(Some(Resolver(t, apiUrl)), apiUrl) == Some(Resolver(t, apiUrl))
  {
    if EsUrlCompleta(t) {
      CompletaFija(t, apiUrl);
    } else if Contains(t, "cloudinary.com") {
      CloudinaryFijo(t, apiUrl);
    } else {
      LocalFija(t, apiUrl);
    }
  }

  /** A trimmed full URL resolves to itself. */
  lemma {:induction false} CompletaFija(t: string, apiUrl: string)
    requires Trim(t) == t && EsUrlCompleta(t)
    ensures ObtenerUrlImagen(Some(Resolver(t, apiUrl)), apiUrl) == Some(Resolver(t, apiUrl))
  {
    assert Resolver(t, apiUrl) == t;
    assert |t| >= 7;
  }

  /** What a trimmed local path resolves to resolves to itself. */
  lemma {:induction false} LocalFija(t: string, apiUrl: string)
    requires Trim(t) == t && !EsUrlCompleta(t) && !Contains(t, "cloudinary.com")
    requires EsUrlCompleta(BaseUrl(apiUrl))
    ensures ObtenerUrlImagen(Some(Resolver(t, apiUrl)), apiUrl) == Some(Resolver(t, apiUrl))
  {
    var b := BaseUrl(apiUrl);
    assert Resolver(t, apiUrl) == b + "/" + t;
    assert t == [] || t[|t| - 1] == TrimEnd(TrimStart(t))[|t| - 1];
    UrlLocal(b, t);
    UrlResuelta(b + "/" + t, apiUrl);
  }

  /** What a trimmed Cloudinary path resolves to resolves to itself. */
  lemma {:induction false} CloudinaryFijo(t: string, apiUrl: string)
    requires Trim(t) == t && !EsUrlCompleta(t) && Contains(t, "cloudinary.com")
    ensures ObtenerUrlImagen(Some(Resolver(t, apiUrl)), apiUrl) == Some(Resolver(t, apiUrl))
  {
    PrimeraUrlSpec(t, 0);
    match PrimeraUrl(t, 0)
    case Some(u) =>
      assert Resolver(t, apiUrl) == u;
      assert u[|u| - 1] in u;
      UrlResuelta(u, apiUrl);
    case None =>
      assert Resolver(t, apiUrl) == t;
      assert t != [];
  }

  // ---- subirImagenProducto ----

  /** `imageUri.split('.').pop()`: the text after the last `.`, or the
      whole URI when it has none. */
  function Extension(uri: string): string
  {
    match LastIndexBefore(uri, '.', |uri|)
    case Some(d) => uri[d + 1..]
    case None => uri
  }

  /** `producto-<Date.now()>.<ext>` */
  function NombreArchivo(ts: nat, ext: string): string
  {
    "producto-" + NatToString(ts) + "." + ext
  }

  /** `image/<ext>` */
  function TipoMime(ext: string): string
  {
    "image/" + ext
  }

  /** The extension has no dot and ends the URI; with a dot in the URI it
      is exactly what follows the last one. */
  lemma {:induction false} ExtensionSpec(uri: string)
    ensures var e := Extension(uri);
      && '.' !in e
      && |e| <= |uri| && uri[|uri| - |e|..] == e
      && ('.' in uri ==> |e| < |uri| && uri[|uri| - |e| - 1] == '.')
      && ('.' !in uri ==> e == uri)
  {
    var e := Extension(uri);
  }

  /** Whatever precedes a last `.`, the extension is what follows it. */
  lemma {:induction false} ExtensionAfterDot(pre: string, e: string)
    requires '.' !in e
    ensures Extension(pre + "." + e) == e
  {
    var n := pre + "." + e;
    var d := |pre|;
    assert n[d] == '.';
    forall i | d < i < |n| ensures n[i] != '.' {
      assert n[i] == e[i - d - 1];
    }
    LastIndexBeforeIs(n, '.', |n|, d);
    assert n[d + 1..] == e;
  }

  /** The generated file name starts with `producto-`, carries the
      timestamp in decimal, and gives back the same extension. */
  lemma {:induction false} NombreArchivoSpec(ts: nat, uri: string)
    ensures var e := Extension(uri);
      var n := NombreArchivo(ts, e);
      var digits := NatToString(ts);
      && StartsWith(n, "producto-")
      && n[9..9 + |digits|] == digits && DigitsValue(digits) == ts
      && Extension(n) == e
      && TipoMime(e) == "image/" + e
  {
    var e := Extension(uri);
    ExtensionSpec(uri);
    NatToStringValue(ts);
    var digits := NatToString(ts);
    var pre := "producto-" + digits;
    var n := NombreArchivo(ts, e);
    assert n == pre + "." + e;
    assert n[..9] == "producto-" && n[9..9 + |digits|] == digits by {
      assert n[..|pre|] == pre;
      assert pre[..9] == "producto-" && pre[9..] == digits;
    }
    ExtensionAfterDot(pre, e);
  }
}
