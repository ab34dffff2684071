/** The single place where a tile stream provider is built from a map source. */
module ProviderFactory {
  import opened Wrappers

  /** The closed set of map sources. */
  datatype MapSource = IGN | USGS | OPEN_STREET_MAP | IGN_SPAIN | SWISS_TOPO | ORDNANCE_SURVEY

  /** An IGN layer; only its `realName` is read here. */
  datatype IgnLayer = IgnLayer(realName: string)

  /** The source-specific configuration: IGN's API key and layer, or the data
      any other source is given (which no other source reads). */
  datatype MapSourceData = IgnSourceData(api: string, layer: IgnLayer) | OtherSourceData

  /** The URL builder each provider is wired with. */
  datatype UrlTileBuilder =
    | UrlTileBuilderIgn(api: string, layerRealName: string)
    | UrlTileBuilderUSGS
    | UrlTileBuilderOSM
    | UrlTileBuilderIgnSpain
    | UrlTileBuilderSwiss
    | UrlTileBuilderOrdnanceSurvey

  /** A fully wired provider: its class and what it was constructed with. */
  datatype TileStreamProvider =
    | TileStreamProviderIgn(urlTileBuilder: UrlTileBuilder, layer: IgnLayer)
    | TileStreamProviderUSGS(urlTileBuilder: UrlTileBuilder)
    | TileStreamProviderOSM(urlTileBuilder: UrlTileBuilder)
    | TileStreamProviderIgnSpain(urlTileBuilder: UrlTileBuilder)
    | TileStreamProviderSwiss(urlTileBuilder: UrlTileBuilder)
    | TileStreamProviderOrdnanceSurvey(urlTileBuilder: UrlTileBuilder)

  const MissingIgnData: string := "Missing data for IGN source"

  /** The source a provider serves, read off its class alone. */
  function SourceOf(p: TileStreamProvider): MapSource
  {
    match p
    case TileStreamProviderIgn(_, _) => IGN
    case TileStreamProviderUSGS(_) => USGS
    case TileStreamProviderOSM(_) => OPEN_STREET_MAP
    case TileStreamProviderIgnSpain(_) => IGN_SPAIN
    case TileStreamProviderSwiss(_) => SWISS_TOPO
    case TileStreamProviderOrdnanceSurvey(_) => ORDNANCE_SURVEY
  }

  /** The source a URL builder serves. */
  function BuilderSource(b: UrlTileBuilder): MapSource
  {
    match b
    case UrlTileBuilderIgn(_, _) => IGN
    case UrlTileBuilderUSGS => USGS
    case UrlTileBuilderOSM => OPEN_STREET_MAP
    case UrlTileBuilderIgnSpain => IGN_SPAIN
    case UrlTileBuilderSwiss => SWISS_TOPO
    case UrlTileBuilderOrdnanceSurvey => ORDNANCE_SURVEY
  }

  /** `createTileStreamProvider(mapSource, mapSourceData)`; the exception it
      throws is the `Failure` case. */
  function CreateTileStreamProvider(mapSource: MapSource, mapSourceData: MapSourceData)
    : (r: Result<TileStreamProvider, string>)
    ensures r.Failure? <==> mapSource == IGN && !mapSourceData.IgnSourceData?
    ensures r.Failure? ==> r.error == MissingIgnData
    ensures r.Success? ==> SourceOf(r.value) == mapSource
    ensures r.Success? ==> BuilderSource(r.value.urlTileBuilder) == mapSource
  {
    match mapSource
    case IGN =>
      if !mapSourceData.IgnSourceData? then Failure(MissingIgnData)
      else
        var urlTileBuilder := UrlTileBuilderIgn(mapSourceData.api, mapSourceData.layer.realName);
        Success(TileStreamProviderIgn(urlTileBuilder, mapSourceData.layer))
    case USGS => Success(TileStreamProviderUSGS(UrlTileBuilderUSGS))
    case OPEN_STREET_MAP => Success(TileStreamProviderOSM(UrlTileBuilderOSM))
    case IGN_SPAIN => Success(TileStreamProviderIgnSpain(UrlTileBuilderIgnSpain))
    case SWISS_TOPO => Success(TileStreamProviderSwiss(UrlTileBuilderSwiss))
    case ORDNANCE_SURVEY => Success(TileStreamProviderOrdnanceSurvey(UrlTileBuilderOrdnanceSurvey))
  }

  /** With IGN data, the builder gets the API key and the layer's real name,
      and the provider gets the same layer. */
  lemma IgnWiring(api: string, layer: IgnLayer)
    ensures CreateTileStreamProvider(IGN, IgnSourceData(api, layer)) ==
      Success(TileStreamProviderIgn(UrlTileBuilderIgn(api, layer.realName), layer))
  {
  }

  /** Every source but IGN ignores its data: any two payloads give the same
      provider, and none of them fails. */
  lemma OtherSourcesIgnoreData(mapSource: MapSource, d1: MapSourceData, d2: MapSourceData)
    requires mapSource != IGN
    ensures CreateTileStreamProvider(mapSource, d1).Success?
    ensures CreateTileStreamProvider(mapSource, d1) == CreateTileStreamProvider(mapSource, d2)
  {
  }

  /** No cross-wiring: providers built for different sources differ, and the
      one built for a source can be told from all others by its class. */
  lemma DistinctSourcesDistinctProviders(s1: MapSource, d1: MapSourceData, s2: MapSource, d2: MapSourceData)
    requires CreateTileStreamProvider(s1, d1).Success? && CreateTileStreamProvider(s2, d2).Success?
    ensures CreateTileStreamProvider(s1, d1) == CreateTileStreamProvider(s2, d2) ==>
      s1 == s2 && (s1 == IGN ==> d1 == d2)
  {
  }
}
