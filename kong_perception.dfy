/**
  The perception stage of the audit agent (`perceive_kong`): the services and
  plugins fetched from the gateway admin API are flattened into one record per
  service that carries the deduplicated names of the plugins attached to the
  service itself or to any of its routes.

  The admin API is not called here: the fetched lists are inputs, and the two
  per-service and per-route fetches are functions of the id they are fetched
  for. A failed fetch yields an empty list, so every input may be empty.
*/
module KongPerception {
  import opened Wrappers

  /** A plugin of the global plugin list; `service` is the id of the service it is attached to, if any. */
  datatype Plugin = Plugin(name: string, service: Option<string>)

  /** A service of the service list. */
  datatype Service = Service(id: string, name: string)

  /** One entry of `kong_data`; the plugin collection is `set(plugin_names)`. */
  datatype ServiceRecord = ServiceRecord(serviceName: string, serviceId: string, servicePlugins: set<string>)

  /** The ids of the routes of a service (`services/{id}/routes`). */
  type RoutesOf = string -> seq<string>

  /** The plugin names of a route (`routes/{id}/plugins`). */
  type RoutePlugins = string -> seq<string>

  function Elems(s: seq<string>): set<string> {
    set x | x in s
  }

  /** The ids of the services that some plugin of the global list is attached to. */
  function AttachedIds(plugins: seq<Plugin>): set<string> {
    set p | p in plugins && p.service.Some? :: p.service.value
  }

  /** The names that the first loop of the stage appends under service `id`, in list order. */
  function AttachedNames(plugins: seq<Plugin>, id: string): (names: seq<string>)
    ensures forall n :: n in names <==>
      exists j :: 0 <= j < |plugins| && plugins[j].service == Some(id) && plugins[j].name == n
  {
    if plugins == [] then []
    else
      var init, last := plugins[..|plugins| - 1], plugins[|plugins| - 1];
      var names := AttachedNames(init, id) + (if last.service == Some(id) then [last.name] else []);
      assert forall j :: 0 <= j < |init| ==> init[j] == plugins[j];
      names
  }

  /** The plugin names of the given routes, route after route. */
  function RouteNames(routes: seq<string>, routePlugins: RoutePlugins): (names: seq<string>)
    ensures forall n :: n in names <==> exists k :: 0 <= k < |routes| && n in routePlugins(routes[k])
  {
    if routes == [] then []
    else
      var init := routes[..|routes| - 1];
      assert forall k :: 0 <= k < |init| ==> init[k] == routes[k];
      RouteNames(init, routePlugins) + routePlugins(routes[|routes| - 1])
  }

  /** The plugin collection of service `id`: its attached plugins and the plugins of its routes. */
  function PluginSet(plugins: seq<Plugin>, routesOf: RoutesOf, routePlugins: RoutePlugins, id: string): set<string> {
    Elems(AttachedNames(plugins, id)) + Elems(RouteNames(routesOf(id), routePlugins))
  }

  /** The `kong_data` list the stage builds: one record per service, in service order. */
  function KongRecords(services: seq<Service>, plugins: seq<Plugin>, routesOf: RoutesOf, routePlugins: RoutePlugins)
    : seq<ServiceRecord>
  {
    seq(|services|, i requires 0 <= i < |services| =>
      ServiceRecord(services[i].name, services[i].id, PluginSet(plugins, routesOf, routePlugins, services[i].id)))
  }

  /**
    The first loop of the stage: the map from service id to the names of the
    plugins attached to it, built with `setdefault(...).append`. Plugins with
    no service are skipped.
  */
  method ServicePluginsMap(plugins: seq<Plugin>) returns (m: map<string, seq<string>>)
    ensures m.Keys == AttachedIds(plugins)
    ensures forall id :: id in m ==> m[id] == AttachedNames(plugins, id)
  {
    m := map[];
    for i := 0 to |plugins|
      invariant m.Keys == AttachedIds(plugins[..i])
      invariant forall id :: id in m ==> m[id] == AttachedNames(plugins[..i], id)
      invariant forall id :: id !in m ==> AttachedNames(plugins[..i], id) == []
    {
      var plugin := plugins[i];
      AttachedSnoc(plugins, i);
      match plugin.service {
        case Some(serviceId) =>
          var names := if serviceId in m then m[serviceId] else [];
          m := m[serviceId := names + [plugin.name]];
        case None =>
      }
    }
    assert plugins[..|plugins|] == plugins;
  }

  /** Processing one more plugin adds its service id and appends its name under that id. */
  lemma AttachedSnoc(plugins: seq<Plugin>, i: nat)
    requires i < |plugins|
    ensures AttachedIds(plugins[..i + 1]) ==
      AttachedIds(plugins[..i]) + (if plugins[i].service.Some? then {plugins[i].service.value} else {})
    ensures forall id ::
      AttachedNames(plugins[..i + 1], id) ==
        AttachedNames(plugins[..i], id) + (if plugins[i].service == Some(id) then [plugins[i].name] else [])
  {
    assert plugins[..i + 1][..i] == plugins[..i];
    assert plugins[..i + 1] == plugins[..i] + [plugins[i]];
  }

  lemma ElemsAppend(a: seq<string>, b: seq<string>)
    ensures Elems(a + b) == Elems(a) + Elems(b)
  {
  }

  lemma {:induction false} UnattachedHasNoNames(plugins: seq<Plugin>, id: string)
    requires id !in AttachedIds(plugins)
    ensures AttachedNames(plugins, id) == []
  {
    if plugins != [] {
      var init, last := plugins[..|plugins| - 1], plugins[|plugins| - 1];
      assert last in plugins;
      assert AttachedIds(init) <= AttachedIds(plugins) by {
        forall p | p in init ensures p in plugins { }
      }
      UnattachedHasNoNames(init, id);
    }
  }

  /** What the map holds for `id` once the services with an id in `seen` have been processed. */
  ghost predicate MapEntryInvariant(m: map<string, seq<string>>, plugins: seq<Plugin>, routesOf: RoutesOf,
                                    routePlugins: RoutePlugins, seen: set<string>)
  {
    forall id :: id in m ==>
      Elems(m[id]) == Elems(AttachedNames(plugins, id)) +
        (if id in seen then Elems(RouteNames(routesOf(id), routePlugins)) else {})
  }

  /** The `extend` loop over the routes of one service. */
  method ExtendWithRoutePlugins(names: seq<string>, routes: seq<string>, routePlugins: RoutePlugins)
    returns (extended: seq<string>)
    ensures extended == names + RouteNames(routes, routePlugins)
  {
    extended := names;
    for r := 0 to |routes|
      invariant extended == names + RouteNames(routes[..r], routePlugins)
    {
      assert routes[..r + 1][..r] == routes[..r];
      extended := extended + routePlugins(routes[r]);
    }
    assert routes[..|routes|] == routes;
  }

  /**
    The body of `perceive_kong` between the fetches and the state write. The
    list taken from the map for a service is the map's own list, so extending
    it with the route plugins also changes the map entry; a service without
    attached plugins extends a fresh list that the map never sees.
  */
  method PerceiveServices(services: seq<Service>, plugins: seq<Plugin>, routesOf: RoutesOf, routePlugins: RoutePlugins)
    returns (kongData: seq<ServiceRecord>)
    ensures kongData == KongRecords(services, plugins, routesOf, routePlugins)
  {
    ghost var records := KongRecords(services, plugins, routesOf, routePlugins);
    var m := ServicePluginsMap(plugins);
    ghost var seen: set<string> := {};
    kongData := [];
    for i := 0 to |services|
      invariant |kongData| == i
      invariant forall j :: 0 <= j < i ==> kongData[j] == records[j]
      invariant m.Keys == AttachedIds(plugins)
      invariant MapEntryInvariant(m, plugins, routesOf, routePlugins, seen)
    {
      var service := services[i];
      var pluginNames := if service.id in m then m[service.id] else [];
      ghost var base := pluginNames;
      pluginNames := ExtendWithRoutePlugins(pluginNames, routesOf(service.id), routePlugins);
      var m' := if service.id in m then m[service.id := pluginNames] else m;
      PerceiveStep(m, m', plugins, routesOf, routePlugins, seen, service.id, pluginNames);
      m, seen := m', seen + {service.id};
      kongData := kongData + [ServiceRecord(service.name, service.id, Elems(pluginNames))];
    }
  }

  /** One service of the second loop keeps the map entries and yields the service's plugin collection. */
  lemma PerceiveStep(m: map<string, seq<string>>, m': map<string, seq<string>>, plugins: seq<Plugin>,
                     routesOf: RoutesOf, routePlugins: RoutePlugins, seen: set<string>, id: string, names: seq<string>)
    requires m.Keys == AttachedIds(plugins)
    requires MapEntryInvariant(m, plugins, routesOf, routePlugins, seen)
    requires names == (if id in m then m[id] else []) + RouteNames(routesOf(id), routePlugins)
    requires m' == if id in m then m[id := names] else m
    ensures m'.Keys == AttachedIds(plugins)
    ensures Elems(names) == PluginSet(plugins, routesOf, routePlugins, id)
    ensures MapEntryInvariant(m', plugins, routesOf, routePlugins, seen + {id})
  {
    var base := if id in m then m[id] else [];
    ElemsAppend(base, RouteNames(routesOf(id), routePlugins));
    if id !in m {
      UnattachedHasNoNames(plugins, id);
    }
  }

  /**
    The collection of a record: a name is in it iff some plugin of the global
    list attached to that service carries it, or some route of that service
    has a plugin of that name. Plugins with no service contribute nothing.
  */
  lemma PluginMembership(services: seq<Service>, plugins: seq<Plugin>, routesOf: RoutesOf, routePlugins: RoutePlugins,
                         i: nat, n: string)
    requires i < |services|
    ensures var rec := KongRecords(services, plugins, routesOf, routePlugins)[i];
      n in rec.servicePlugins <==>
        (exists j :: 0 <= j < |plugins| && plugins[j].service == Some(services[i].id) && plugins[j].name == n) ||
        (exists k :: 0 <= k < |routesOf(services[i].id)| && n in routePlugins(routesOf(services[i].id)[k]))
  {
  }

  /** A service with no attached plugin and no route plugin gets an empty collection. */
  lemma NoPluginsEmptyCollection(services: seq<Service>, plugins: seq<Plugin>, routesOf: RoutesOf,
                                 routePlugins: RoutePlugins, i: nat)
    requires i < |services|
    requires forall j :: 0 <= j < |plugins| ==> plugins[j].service != Some(services[i].id)
    requires forall k :: 0 <= k < |routesOf(services[i].id)| ==> routePlugins(routesOf(services[i].id)[k]) == []
    ensures KongRecords(services, plugins, routesOf, routePlugins)[i].servicePlugins == {}
  {
    var rec := KongRecords(services, plugins, routesOf, routePlugins)[i];
    forall n | n in rec.servicePlugins ensures false {
      PluginMembership(services, plugins, routesOf, routePlugins, i, n);
    }
  }

  /** One record per service, in service order, with name and id copied unchanged. */
  lemma RecordsFollowServices(services: seq<Service>, plugins: seq<Plugin>, routesOf: RoutesOf,
                              routePlugins: RoutePlugins)
    ensures var recs := KongRecords(services, plugins, routesOf, routePlugins);
      |recs| == |services| &&
      forall i :: 0 <= i < |services| ==>
        recs[i].serviceName == services[i].name && recs[i].serviceId == services[i].id
  {
  }
}
