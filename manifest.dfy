/** The parts of a BOSH manifest (package bdm) that the deployment reconciler
    reads or writes: its free-form properties, its explicit variables, and the
    link data (`QuarksLink`, `JobInstance`) injected under `quarks_links`. */
module BoshManifest {
  import opened Wrappers

  /** One member of a link provider's backing pod set. */
  datatype JobInstance = JobInstance(name: string, id: string, index: nat, address: string, bootstrap: bool)

  /** A resolved link: the provider type, the service DNS address and the instances. */
  datatype QuarksLink = QuarksLink(linkType: string, address: string, instances: seq<JobInstance>)

  /** A property value. Properties are free-form (`interface{}`); `Scalar` stands
      for any value the reconciler does not interpret, `LinkSet` for the
      `quarks_links` map it writes. */
  datatype Property = Scalar(text: string) | LinkSet(links: map<string, QuarksLink>)

  /** An explicit BOSH variable, handed to the variables converter. */
  datatype Variable = Variable(name: string, varType: string)

  /** A snapshot of a manifest; `properties == None` is Go's nil map. */
  datatype ManifestData = ManifestData(properties: Option<map<string, Property>>, variables: seq<Variable>)

  /** The resolved manifest the reconciler shares by reference; the link resolver
      updates its properties in place. */
  class Manifest {
    var properties: Option<map<string, Property>>
    var variables: seq<Variable>

    constructor (data: ManifestData)
      ensures Data() == data
    {
      properties := data.properties;
      variables := data.variables;
    }

    function Data(): ManifestData
      reads this
    {
      ManifestData(properties, variables)
    }
  }
}
