/**
 * `PostTypesPresenter.format`: projects a post-type record onto exactly the
 * three keys `id`, `name` and `created_at`; every other property is dropped.
 * A JavaScript object is modelled as the map from its own keys to their values.
 */
module PostTypesPresenter {
  import opened JsValues

  type JsObject = map<string, JsValue>

  /** The keys the presenter keeps. */
  const PresentedKeys: set<string> := {"id", "name", "created_at"}

  /** Reading property `key`: an absent property reads as `undefined`. */
  function Get(o: JsObject, key: string): (v: JsValue)
  {
    if key in o then o[key] else Undefined
  }

  /**
   * `format`: the output has exactly the presented keys, each carrying the
   * input's value for that key.
   */
  function Format(o: JsObject): (r: JsObject)
    ensures r.Keys == PresentedKeys
    ensures forall k :: k in r ==> r[k] == Get(o, k)
  {
    map["id" := Get(o, "id"), "name" := Get(o, "name"), "created_at" := Get(o, "created_at")]
  }

  /** `format` is a projection: formatting a formatted record changes nothing. */
  lemma FormatIdempotent(o: JsObject)
    ensures Format(Format(o)) == Format(o)
  {
  }

  /** Only the presented keys matter: records that agree on them format identically. */
  lemma FormatIgnoresExtras(o1: JsObject, o2: JsObject)
    requires forall k :: k in PresentedKeys ==> Get(o1, k) == Get(o2, k)
    ensures Format(o1) == Format(o2)
  {
  }

  /**
   * The unit test's subject: a record with `id`, `name`, `created_at` and two
   * extra properties formats to the strict three-key object.
   */
  lemma FormatDropsExtraInfo(id: string, name: string, createdAt: int)
    ensures var subject := map["id" := Str(id), "name" := Str(name), "created_at" := Date(createdAt),
                               "anyInfo1" := Str("random info1"), "anyInfo2" := Str("random info2")];
            Format(subject) == map["id" := Str(id), "name" := Str(name), "created_at" := Date(createdAt)]
  {
  }
}
