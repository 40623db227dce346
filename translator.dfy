/** The user-interface string lookup: a key is looked up in the browser language, then in that
    language's configured fallback, then in English; a key nobody translates comes back as is. */
module Translator {
  import opened Wrappers
  import opened Strings

  const LanguageFallbacks: map<string, string> := map["en-gb" := "en", "en-us" := "en"]

  const FallbackLanguage: string := "en"

  /** The placeholder language tried when the browser language has no configured fallback. */
  const NoLanguage: string := "n/a"

  const English: map<string, string> := map[
    "/v1::namespaces" := "Namespaces",
    "/v1::nodes" := "Nodes",
    "/v1::events" := "Events",
    "/v1::pods" := "Pods",
    "apps/v1::deployments" := "Deployments",
    "apps/v1::statefulsets" := "Stateful Sets",
    "apps/v1::daemonsets" := "Daemon Sets",
    "apps/v1::replicasets" := "Replica Sets",
    "batch/v1::jobs" := "Jobs",
    "batch/v1::cronjobs" := "Cron Jobs",
    "/v1::configmaps" := "Config Maps",
    "/v1::secrets" := "Secrets",
    "autoscaling/v2::horizontalpodautoscalers" := "Horizontal Pod Autoscalers",
    "policy/v1::poddisruptionbudgets" := "Pod Disruption Budgets",
    "/v1::services" := "Services",
    "networking.k8s.io/v1::networkpolicies" := "Network Policies",
    "networking.k8s.io/v1::ingresses" := "Ingresses",
    "networking.k8s.io/v1::ingressclasses" := "Ingress Classes",
    "storage.k8s.io/v1::storageclasses" := "Storage Classes",
    "/v1::persistentvolumes" := "Persistent Volumes",
    "/v1::persistentvolumeclaims" := "Persistent Volume Claims",
    "rbac.authorization.k8s.io/v1::roles" := "Roles",
    "rbac.authorization.k8s.io/v1::rolebindings" := "Role Bindings",
    "rbac.authorization.k8s.io/v1::clusterroles" := "Cluster Roles",
    "rbac.authorization.k8s.io/v1::clusterrolebindings" := "Cluster Role Bindings",
    "/v1::serviceaccounts" := "Service Accounts"
  ]

  const Translations: map<string, map<string, string>> := map["en" := English]

  /** The languages tried, in order, for an already lower-cased browser language. */
  function Candidates(language: string): seq<string> {
    [language, if language in LanguageFallbacks then LanguageFallbacks[language] else NoLanguage, FallbackLanguage]
  }

  /** `translations[lang]?.[str]` when it is truthy, that is a non-empty string. */
  function Lookup(lang: string, str: string): (hit: Option<string>)
    ensures hit.Some? <==> lang in Translations && str in Translations[lang] && Translations[lang][str] != ""
    ensures hit.Some? ==> hit.value == Translations[lang][str]
  {
    if lang in Translations && str in Translations[lang] && Translations[lang][str] != "" then
      Some(Translations[lang][str])
    else
      None
  }

  /** The translation from the first language in `langs` that has one. */
  function FirstHit(langs: seq<string>, str: string): (hit: Option<string>)
    ensures hit.None? <==> forall i :: 0 <= i < |langs| ==> Lookup(langs[i], str).None?
    ensures hit.Some? ==> exists i :: 0 <= i < |langs| && Lookup(langs[i], str) == hit
                                        && forall j :: 0 <= j < i ==> Lookup(langs[j], str).None?
  {
    if langs == [] then None
    else if Lookup(langs[0], str).Some? then Lookup(langs[0], str)
    else
      var rest := FirstHit(langs[1..], str);
      assert forall i :: 1 <= i < |langs| ==> langs[i] == langs[1..][i - 1];
      if rest.Some? then
        var k :| 0 <= k < |langs[1..]| && Lookup(langs[1..][k], str) == rest
                 && forall j :: 0 <= j < k ==> Lookup(langs[1..][j], str).None?;
        assert Lookup(langs[k + 1], str) == rest;
        rest
      else
        rest
  }

  /** What `translate(str)` returns when the browser reports `navigatorLanguage`. */
  function Translation(navigatorLanguage: string, str: string): string {
    FirstHit(Candidates(ToLower(navigatorLanguage)), str).GetOr(str)
  }

  /** The lookup loop with its early return. */
  method Translate(navigatorLanguage: string, str: string) returns (r: string)
    ensures r == Translation(navigatorLanguage, str)
    ensures r == str || exists lang :: lang in Translations && str in Translations[lang] && Translations[lang][str] == r != ""
  {
    var langs := Candidates(ToLower(navigatorLanguage));
    var i := 0;
    while i < |langs|
      invariant 0 <= i <= |langs|
      invariant FirstHit(langs, str) == FirstHit(langs[i..], str)
    {
      assert langs[i..][1..] == langs[i + 1..];
      var translation := Lookup(langs[i], str);
      if translation.Some? {
        r := translation.value;
        return;
      }
      i := i + 1;
    }
    r := str;
  }

  /** Only English has a table, so every browser language ends up with the English entry. */
  lemma {:induction false} TranslationIsEnglish(navigatorLanguage: string, str: string)
    ensures Translation(navigatorLanguage, str) == (if str in English then English[str] else str)
  {
    if str in English {
      EnglishNonEmpty(str);
    }
    var langs := Candidates(ToLower(navigatorLanguage));
    assert langs[2] == "en";
    assert forall i :: 0 <= i < 3 && langs[i] != "en" ==> Lookup(langs[i], str).None?;
  }

  /** Every English entry is a real translation (none is the empty string). */
  lemma EnglishNonEmpty(key: string)
    requires key in English
    ensures English[key] != ""
  {
  }

  /** A key that no table holds comes back unchanged, whatever the language. */
  lemma MissIsIdentity(navigatorLanguage: string, str: string)
    requires forall lang :: lang in Translations ==> str !in Translations[lang]
    ensures Translation(navigatorLanguage, str) == str
  {
    assert str !in Translations["en"];
    TranslationIsEnglish(navigatorLanguage, str);
  }

  /** British and American English use the English table through the fallback entry. */
  lemma EnglishVariantsFallBack(navigatorLanguage: string)
    requires ToLower(navigatorLanguage) in {"en-gb", "en-us"}
    ensures Candidates(ToLower(navigatorLanguage))[1] == FallbackLanguage
  {
  }

  /** Lower-casing the browser language first makes the lookup case-insensitive. */
  lemma TranslationIgnoresCase(navigatorLanguage: string, str: string)
    ensures Translation(ToLower(navigatorLanguage), str) == Translation(navigatorLanguage, str)
  {
    ToLowerIdempotent(navigatorLanguage);
  }

  lemma DeploymentsExample()
    ensures Translation("en-GB", "apps/v1::deployments") == "Deployments"
  {
    TranslationIsEnglish("en-GB", "apps/v1::deployments");
  }
}
