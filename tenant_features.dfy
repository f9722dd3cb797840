/**
 * The tenant feature flags hook (client/src/hooks/use-tenant-features.ts):
 * the server's `features` object laid over the defaults, the truthiness test
 * behind `isEnabled`, and the plan passed through.  The request to
 * `/api/soe/tenant/modules` and react-query's caching are not modelled: the
 * parsed response, or its absence, is a parameter.
 */
module TenantFeatures {
  import opened Wrappers

  /** A JSON value as the client holds it (numbers restricted to integers). */
  datatype JsValue =
    | JNull
    | JBool(b: bool)
    | JNum(n: int)
    | JStr(s: string)
    | JArr(items: seq<JsValue>)
    | JObj(fields: map<string, JsValue>)

  /** JavaScript truthiness (`!!v`): false, 0, "" and null are falsy; arrays and objects are truthy. */
  predicate Truthy(v: JsValue) {
    match v
    case JNull => false
    case JBool(b) => b
    case JNum(n) => n != 0
    case JStr(s) => s != ""
    case JArr(_) => true
    case JObj(_) => true
  }

  /** `defaultFeatures`. */
  const Defaults: map<string, JsValue> := map[
    "ide" := JBool(true), "ideMode" := JStr("pro-code"), "whatsapp" := JBool(false),
    "whatsappSessions" := JNum(0), "crm" := JBool(true), "erp" := JBool(true), "bi" := JBool(false),
    "manus" := JBool(true), "manusTools" := JArr([]), "centralApis" := JBool(false),
    "centralApisManage" := JBool(false), "comunidades" := JBool(false), "maxChannels" := JNum(5),
    "biblioteca" := JBool(false), "bibliotecaPublish" := JBool(false), "suporteN3" := JBool(false),
    "retail" := JBool(false), "plus" := JBool(false), "fisco" := JBool(false), "cockpit" := JBool(false),
    "compass" := JBool(true), "production" := JBool(false), "support" := JBool(false),
    "xosCrm" := JBool(false)
  ]

  /** The parsed body of the tenant modules request. */
  datatype TenantData = TenantData(features: Option<JsValue>, plan: Option<JsValue>)

  /** `data?.features || {}` spread: the fields of an object; nothing for a missing or non-object value. */
  function ServerFeatures(data: Option<TenantData>): map<string, JsValue> {
    if data.Some? && data.value.features.Some? && data.value.features.value.JObj? then data.value.features.value.fields
    else map[]
  }

  /** `{ ...defaults, ...server }`: every key the server sends overrides its default; the rest are the defaults. */
  function Merge(defaults: map<string, JsValue>, server: map<string, JsValue>): (r: map<string, JsValue>)
    ensures r.Keys == defaults.Keys + server.Keys
    ensures forall k :: k in server ==> r[k] == server[k]
    ensures forall k :: k in defaults && k !in server ==> r[k] == defaults[k]
  {
    defaults + server
  }

  function Features(data: Option<TenantData>): (r: map<string, JsValue>)
    ensures forall k :: k in r <==> k in Defaults || k in ServerFeatures(data)
    ensures forall k :: k in ServerFeatures(data) ==> r[k] == ServerFeatures(data)[k]
    ensures forall k :: k in Defaults && k !in ServerFeatures(data) ==> r[k] == Defaults[k]
  {
    Merge(Defaults, ServerFeatures(data))
  }

  /** `isEnabled(key)`: the truthiness of the merged value; an unknown key is undefined, so off. */
  predicate IsEnabled(features: map<string, JsValue>, key: string) {
    key in features && Truthy(features[key])
  }

  /** `plan` is the response's `plan`, untouched. */
  function Plan(data: Option<TenantData>): (p: Option<JsValue>)
    ensures data.None? ==> p.None?
    ensures data.Some? ==> p == data.value.plan
  {
    if data.None? then None else data.value.plan
  }

  /** With no server data, or no features object in it, the features are exactly the defaults. */
  lemma NoDataMeansDefaults(data: Option<TenantData>)
    requires data.None? || data.value.features.None?
    ensures Features(data) == Defaults
  {
    assert ServerFeatures(data) == map[];
    assert Defaults + map[] == Defaults;
  }

  /** A key the server sends decides `isEnabled` alone, by its truthiness. */
  lemma ServerValueDecides(data: Option<TenantData>, key: string)
    requires key in ServerFeatures(data)
    ensures IsEnabled(Features(data), key) <==> Truthy(ServerFeatures(data)[key])
  {
  }

  /**
   * Truthiness is not the flag's meaning: an array (even the empty default `manusTools`) is always
   * enabled, a count is enabled iff non-zero, and `ideMode` is enabled even when it is `none`.
   */
  lemma TruthinessOfNonBooleans(data: Option<TenantData>)
    requires ServerFeatures(data) == map["ideMode" := JStr("none"), "whatsappSessions" := JNum(0)]
    ensures IsEnabled(Features(data), "manusTools")
    ensures IsEnabled(Features(data), "ideMode")
    ensures !IsEnabled(Features(data), "whatsappSessions")
    ensures IsEnabled(Features(data), "maxChannels")
    ensures forall items :: Truthy(JArr(items))
    ensures forall n :: Truthy(JNum(n)) <==> n != 0
    ensures forall t :: Truthy(JStr(t)) <==> t != ""
  {
    var f := Features(data);
    assert f["manusTools"] == JArr([]);
    assert f["ideMode"] == JStr("none");
    assert f["whatsappSessions"] == JNum(0);
    assert f["maxChannels"] == JNum(5);
  }
}
