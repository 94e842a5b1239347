/// `DatabaseFactory.for`: the choice between the collection generator and
/// the data generator, made on the resource's `data_name` alone.
module Factories {
  import opened RubyValues
  import opened Host
  import opened Resources

  /** `Jekyll::Site`, reduced to its configuration. */
  datatype Site = Site(config: SiteConfig)

  /** The generator the factory builds, with the arguments it passes. */
  datatype Choice =
    | Collection(resource: NotionDatabase, site: Site, plugin: Json, config: SiteConfig)
    | Data(resource: NotionDatabase, site: Site, plugin: Json)

  /** `DatabaseFactory.for(notion_resource:, site:, plugin:)`. */
  function For(resource: NotionDatabase, site: Site, plugin: Json): (g: Choice)
    ensures g.Collection? <==> DataName(resource.config) == Null
    ensures g.resource == resource && g.site == site && g.plugin == plugin
    ensures g.Collection? ==> g.config == site.config
  {
    if DataName(resource.config) == Null then Collection(resource, site, plugin, site.config)
    else Data(resource, site, plugin)
  }
}
