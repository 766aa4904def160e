/** component/crawl4ai/config_loader/config_loader.py: `ConfigLoader.get_config_loader`,
    which picks where the crawl configuration is read from.

    The loaders are values recording what they are constructed with; the Nacos
    settings read from the application configuration are a parameter. Registering the
    remote listener and reading the file happen in the loaders and are not part of
    this model. */
module ConfigLoader {
  import opened Text

  /** The `NACOS_*` settings of the application configuration. */
  datatype NacosSettings = NacosSettings(serverAddr: string, namespace: string, userName: string, password: string)

  /** The arguments a `NacosClient` is constructed with. */
  datatype NacosClient = NacosClient(serverAddr: string, namespace: string, userName: string, group: string, password: string)

  /** The loader chosen: a `RemoteConfigLoader(data_id, client)` or a
      `FileConfigLoader(config_path, app_home)`. */
  datatype Loader =
    | RemoteLoader(dataId: string, client: NacosClient)
    | FileLoader(configPath: string, appHome: string)

  const RemoteScheme: string := "nacos://"
  const RemoteGroup: string := "aduib-mcp-server"

  /** `ConfigLoader.get_config_loader(config_path, app_home)` */
  function GetConfigLoader(configPath: string, appHome: string, settings: NacosSettings): (r: Loader)
    ensures r.RemoteLoader? <==> StartsWith(configPath, RemoteScheme)
    ensures r.RemoteLoader? ==> RemoteScheme + r.dataId == configPath
    ensures r.RemoteLoader? ==>
      r.client == NacosClient(settings.serverAddr, settings.namespace, settings.userName, RemoteGroup, settings.password)
    ensures r.FileLoader? ==> r.configPath == configPath && r.appHome == appHome
  {
    if StartsWith(configPath, RemoteScheme) then
      var dataId := configPath[|RemoteScheme|..];
      assert RemoteScheme + dataId == configPath[..|RemoteScheme|] + configPath[|RemoteScheme|..];
      RemoteLoader(dataId, NacosClient(settings.serverAddr, settings.namespace, settings.userName, RemoteGroup, settings.password))
    else FileLoader(configPath, appHome)
  }

  /** Putting the scheme in front of a data id and choosing a loader gives that data id
      back. */
  lemma RemoteDataIdRoundTrip(dataId: string, appHome: string, settings: NacosSettings)
    ensures GetConfigLoader(RemoteScheme + dataId, appHome, settings).RemoteLoader?
    ensures GetConfigLoader(RemoteScheme + dataId, appHome, settings).dataId == dataId
  {
    var path := RemoteScheme + dataId;
    assert path[..|RemoteScheme|] == RemoteScheme;
    var r := GetConfigLoader(path, appHome, settings);
    assert RemoteScheme + r.dataId == RemoteScheme + dataId;
    assert r.dataId == (RemoteScheme + r.dataId)[|RemoteScheme|..];
  }

  /** The scheme alone selects the remote loader with an empty data id. */
  lemma BareSchemeEmptyDataId(appHome: string, settings: NacosSettings)
    ensures GetConfigLoader(RemoteScheme, appHome, settings).RemoteLoader?
    ensures GetConfigLoader(RemoteScheme, appHome, settings).dataId == ""
  {
    RemoteDataIdRoundTrip("", appHome, settings);
    assert RemoteScheme + "" == RemoteScheme;
  }

  /** The prefix test is case-sensitive: an upper-case scheme selects the file loader. */
  lemma UpperCaseSchemeIsAFile(rest: string, appHome: string, settings: NacosSettings)
    ensures GetConfigLoader("NACOS://" + rest, appHome, settings) == FileLoader("NACOS://" + rest, appHome)
  {
    var path := "NACOS://" + rest;
    assert path[0] == 'N' && RemoteScheme[0] == 'n';
  }
}
