/** The CycloneDX object model as far as the command-line tool reads and writes it. A
    nullable reference or nullable value is an `Option`; a list is a `seq`. One datatype
    serves both library revisions the tool was built against: `tools` is the older
    list of tools and `toolChoices` the newer tools object with its component list. */
module BomModel {
  import opened Wrappers

  datatype Classification =
    | Application | Framework | Library | Container | OperatingSystem | Device | Firmware | File

  /** Enum.ToString() of a component type. */
  function ClassificationName(c: Classification): string {
    match c
    case Application => "Application"
    case Framework => "Framework"
    case Library => "Library"
    case Container => "Container"
    case OperatingSystem => "Operating_System"
    case Device => "Device"
    case Firmware => "Firmware"
    case File => "File"
  }

  datatype Scope = Required | Optional | Excluded

  function ScopeName(s: Scope): string {
    match s
    case Required => "Required"
    case Optional => "Optional"
    case Excluded => "Excluded"
  }

  datatype HashAlgorithm =
    | Null | MD5 | SHA_1 | SHA_256 | SHA_384 | SHA_512 | SHA3_256 | SHA3_384 | SHA3_512
    | BLAKE2b_256 | BLAKE2b_384 | BLAKE2b_512 | BLAKE3

  /** Enum.GetValues order of the hash algorithms. */
  const HashAlgorithms: seq<HashAlgorithm> :=
    [Null, MD5, SHA_1, SHA_256, SHA_384, SHA_512, SHA3_256, SHA3_384, SHA3_512,
     BLAKE2b_256, BLAKE2b_384, BLAKE2b_512, BLAKE3]

  /** Enum.ToString() of a hash algorithm. */
  function HashAlgorithmName(a: HashAlgorithm): string {
    match a
    case Null => "Null"
    case MD5 => "MD5"
    case SHA_1 => "SHA_1"
    case SHA_256 => "SHA_256"
    case SHA_384 => "SHA_384"
    case SHA_512 => "SHA_512"
    case SHA3_256 => "SHA3_256"
    case SHA3_384 => "SHA3_384"
    case SHA3_512 => "SHA3_512"
    case BLAKE2b_256 => "BLAKE2b_256"
    case BLAKE2b_384 => "BLAKE2b_384"
    case BLAKE2b_512 => "BLAKE2b_512"
    case BLAKE3 => "BLAKE3"
  }

  datatype Hash = Hash(alg: HashAlgorithm, content: Option<string>)

  datatype AttachedText = AttachedText(contentType: Option<string>, encoding: Option<string>, content: Option<string>)

  datatype License = License(id: Option<string>, name: Option<string>, text: Option<AttachedText>, url: Option<string>)

  /** A component licence entry: a licence object or an SPDX licence expression. */
  datatype LicenseChoice = LicenseChoice(license: Option<License>, expression: Option<string>)

  datatype OrganizationalEntity = OrganizationalEntity(name: Option<string>)

  datatype OrganizationalContact = OrganizationalContact(name: Option<string>, email: Option<string>)

  datatype Swid = Swid(
    tagId: Option<string>, name: Option<string>, version: Option<string>,
    tagVersion: int, patch: bool, text: Option<AttachedText>, url: Option<string>)

  /** External reference types; `BomReference` and `LicenseReference` are the library's
      `Bom` and `License` values, renamed apart from the datatypes of those names. */
  datatype ExternalReferenceType =
    | Vcs | Issue_Tracker | Website | Advisories | BomReference | Mailing_List | Social | Chat
    | Documentation | Support | Distribution | LicenseReference | Build_Meta | Build_System | Other

  function ExternalReferenceTypeName(t: ExternalReferenceType): string {
    match t
    case Vcs => "Vcs"
    case Issue_Tracker => "Issue_Tracker"
    case Website => "Website"
    case Advisories => "Advisories"
    case BomReference => "Bom"
    case Mailing_List => "Mailing_List"
    case Social => "Social"
    case Chat => "Chat"
    case Documentation => "Documentation"
    case Support => "Support"
    case Distribution => "Distribution"
    case LicenseReference => "License"
    case Build_Meta => "Build_Meta"
    case Build_System => "Build_System"
    case Other => "Other"
  }

  datatype ExternalReference = ExternalReference(kind: ExternalReferenceType, url: Option<string>)

  datatype Component = Component(
    kind: Classification,
    mimeType: Option<string>,
    bomRef: Option<string>,
    supplier: Option<OrganizationalEntity>,
    author: Option<string>,
    publisher: Option<string>,
    group: Option<string>,
    name: Option<string>,
    version: Option<string>,
    description: Option<string>,
    scope: Option<Scope>,
    hashes: Option<seq<Hash>>,
    licenses: Option<seq<LicenseChoice>>,
    copyright: Option<string>,
    cpe: Option<string>,
    purl: Option<string>,
    swid: Option<Swid>,
    modified: Option<bool>,
    externalReferences: Option<seq<ExternalReference>>)

  /** `new Component { Type = kind, Name = name, Version = version }` with the rest null. */
  function NewComponent(kind: Classification, group: Option<string>, name: Option<string>, version: Option<string>): (c: Component)
    ensures c.kind == kind && c.group == group && c.name == name && c.version == version
    ensures c.hashes.None? && c.licenses.None? && c.purl.None? && c.bomRef.None?
  {
    Component(kind, None, None, None, None, None, group, name, version, None, None, None, None,
              None, None, None, None, None, None)
  }

  datatype Tool = Tool(vendor: Option<string>, name: Option<string>, version: Option<string>)

  /** The newer library's tools object; only its component list is used. */
  datatype ToolChoices = ToolChoices(components: Option<seq<Component>>)

  /** `timestamp` is the DateTime as the summary line renders it. */
  datatype Metadata = Metadata(
    timestamp: Option<string>,
    tools: Option<seq<Tool>>,
    toolChoices: Option<ToolChoices>,
    authors: Option<seq<OrganizationalContact>>,
    component: Option<Component>)

  const EmptyMetadata := Metadata(None, None, None, None, None)

  datatype Dependency = Dependency(ref: Option<string>, dependencies: DependencyList)

  /** A dependency's nullable list of dependencies. It is spelled out rather than an
      `Option`, so that the dependencies in it are structurally smaller than the one
      that holds them. */
  datatype DependencyList = NullList | DependencyList(items: seq<Dependency>)

  /** A BOM. `services`, `compositions` and `vulnerabilities` record only whether the list
      is non-null, which is all the tool looks at. */
  datatype Bom = Bom(
    serialNumber: Option<string>,
    version: Option<int>,
    bomFormat: string,
    specVersionString: string,
    metadata: Option<Metadata>,
    components: Option<seq<Component>>,
    dependencies: Option<seq<Dependency>>,
    externalReferences: Option<seq<ExternalReference>>,
    services: bool,
    compositions: bool,
    vulnerabilities: bool)

  /** `new Bom()`: no serial number, metadata, components or other lists. */
  const NewBom := Bom(None, None, "CycloneDX", "", None, None, None, None, false, false, false)

  /** The metadata component of a BOM, the `Metadata?.Component` chain. */
  function MetadataComponent(bom: Bom): Option<Component> {
    if bom.metadata.Some? then bom.metadata.value.component else None
  }
}
