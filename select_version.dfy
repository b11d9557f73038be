/**
 * lib/select-version.js: which adapter (or version entry) serves a request,
 * from the single `opts.adapter`, the `x-fh-rest-api-version` header and the
 * `opts.versions` table.
 */
module SelectVersion {
  import opened JsValue
  import opened Errors
  import opened Adapters

  const VersionHeader: string := "x-fh-rest-api-version"

  /**
   * What `_getAdapterForRequest` does. It always calls back once with a null
   * error and a version that may be null or undefined (`Picked(None)`), unless
   * reading `opts.versions[...]` throws because `opts.versions` is missing.
   */
  datatype Selection = Picked(version: Option<Adapter>) | SelectionThrew(e: Error)

  /** `req.headers['x-fh-rest-api-version']` is truthy. */
  predicate HeaderSet(header: Option<string>) {
    header.Some? && header.value != ""
  }

  /** `opts.versions[key]` on a missing table. */
  function LookupOnMissing(key: string): Error {
    TypeError("Cannot read properties of undefined (reading '" + key + "')")
  }

  /**
   * `_getAdapterForRequest(req, callback)`: `single` is `opts.adapter`,
   * `versions` is `opts.versions` (`None` when missing), and `header` the
   * version header of the request. The default version is looked up by its
   * property key, so an undefined default looks up "undefined".
   */
  function Select(single: Option<Adapter>, versions: Option<map<string, Adapter>>,
                  defaultVersion: Value, header: Option<string>): Selection
  {
    if single.Some? then Picked(single)
    else if HeaderSet(header) then
      if versions.None? then SelectionThrew(LookupOnMissing(header.value))
      else if header.value in versions.value then Picked(Some(versions.value[header.value]))
      else Picked(None)
    else
      var key := ToPropertyKey(defaultVersion);
      if versions.None? then SelectionThrew(LookupOnMissing(key))
      else if key in versions.value then Picked(Some(versions.value[key]))
      else Picked(None)
  }

  /** With `opts.adapter` set it is used whatever the header says, and the table is not read. */
  lemma SingleAdapterWins(a: Adapter, versions: Option<map<string, Adapter>>, defaultVersion: Value, header: Option<string>)
    ensures Select(Some(a), versions, defaultVersion, header) == Picked(Some(a))
  {
  }

  /** A header naming a known version picks that entry. */
  lemma HeaderPicksVersion(versions: map<string, Adapter>, defaultVersion: Value, h: string)
    requires h != "" && h in versions
    ensures Select(None, Some(versions), defaultVersion, Some(h)) == Picked(Some(versions[h]))
  {
  }

  /** A header naming an unknown version gives null, with no error and no fallback to the default. */
  lemma UnknownVersionGivesNull(versions: map<string, Adapter>, defaultVersion: Value, h: string)
    requires h != "" && h !in versions
    ensures Select(None, Some(versions), defaultVersion, Some(h)) == Picked(None)
  {
  }

  /** Without the header (or with an empty one) the default version's entry is used. */
  lemma NoHeaderUsesDefault(versions: map<string, Adapter>, defaultVersion: string, header: Option<string>)
    requires !HeaderSet(header)
    ensures Select(None, Some(versions), Str(defaultVersion), header)
         == if defaultVersion in versions then Picked(Some(versions[defaultVersion])) else Picked(None)
  {
  }

  /**
   * Whatever is picked comes from the configuration: it is `opts.adapter` or
   * an entry of the versions table, and only a missing table makes it throw.
   */
  lemma SelectionComesFromConfig(single: Option<Adapter>, versions: Option<map<string, Adapter>>,
                                 defaultVersion: Value, header: Option<string>)
    ensures var s := Select(single, versions, defaultVersion, header);
            s.Picked? && s.version.Some? ==>
              (single.Some? && s.version == single) || (versions.Some? && s.version.value in versions.value.Values)
    ensures Select(single, versions, defaultVersion, header).SelectionThrew? <==> single.None? && versions.None?
  {
    var s := Select(single, versions, defaultVersion, header);
    if s.Picked? && s.version.Some? && single.None? {
      var key := if HeaderSet(header) then header.value else ToPropertyKey(defaultVersion);
      assert versions.value[key] in versions.value.Values;
    }
  }

  /** Two requests with the same version header get the same selection: nothing else in the request is read. */
  lemma OnlyTheHeaderMatters(single: Option<Adapter>, versions: Option<map<string, Adapter>>,
                             defaultVersion: Value, h1: Option<string>, h2: Option<string>)
    requires HeaderSet(h1) == HeaderSet(h2) && (HeaderSet(h1) ==> h1 == h2)
    ensures Select(single, versions, defaultVersion, h1) == Select(single, versions, defaultVersion, h2)
  {
  }
}
