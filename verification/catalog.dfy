/**
 * The service catalog of src/template_loader.py, over an already-parsed
 * `docker-services.yaml`: one record per service, the grouping by category, the
 * required-field check, and the load-once cache in front of the parser.
 */
module Catalog {
  import opened Wrappers
  import opened OrderedMap
  import opened Text

  /**
   * An item of `extra_ports`: a bare port number, or a mapping from a port
   * specification to a comment (only the Gluetun block reads such a mapping).
   */
  datatype ExtraPort = Bare(port: nat) | Annotated(entries: seq<(string, string)>)

  /**
   * One entry of `services`. A field the YAML leaves out is `None` (or empty, for
   * the fields every reader defaults to an empty collection). `nulls` holds the
   * keys the YAML writes with an explicit null (`port:` or `port: null`): such a
   * key is present in the parsed mapping, with the value `None`. A key that also
   * has a value is read by its value.
   */
  datatype Service = Service(
    name: Option<string>,
    description: Option<string>,
    category: Option<string>,
    image: Option<string>,
    port: Option<nat>,
    extraPorts: seq<ExtraPort>,
    volumes: seq<(string, string)>,
    mediaVolumes: seq<(string, string)>,
    extraVolumes: seq<(string, string)>,
    env: seq<string>,
    setupUrl: Option<string>,
    setupSteps: seq<string>,
    configNotes: seq<string>,
    warnings: seq<string>,
    needsEncryptionKey: bool,
    nulls: set<string>)

  /** The empty mapping `{}` that `services.get(id, {})` falls back to. */
  const NoService: Service := Service(None, None, None, None, None, [], [], [], [], [], None, [], [], [], false, {})

  /** The service catalog: ids to records, in file order. */
  type Services = seq<(string, Service)>

  /**
   * `service_data.get("category", "other")`: the category, `None` for a null
   * category, and "other" only when the key is absent.
   */
  function CategoryOf(svc: Service): Option<string> {
    if svc.category.Some? then svc.category
    else if "category" in svc.nulls then None
    else Some("other")
  }

  /**
   * `str(service[key])` for a text field: the text, "None" for a null, and nothing
   * when the key is absent (where the indexing raises `KeyError`).
   */
  function Shown(value: Option<string>, svc: Service, key: string): Option<string> {
    if value.Some? then value
    else if key in svc.nulls then Some("None")
    else None
  }

  /** `str(service["port"])`, in the same three cases. */
  function PortShown(svc: Service): Option<string> {
    if svc.port.Some? then Some(NatToString(svc.port.value))
    else if "port" in svc.nulls then Some("None")
    else None
  }

  // ---------------------------------------------------------------------------
  // Grouping by category

  /** `services_by_category[category].append(service_id)`, creating the list if needed. */
  function AddTo(groups: seq<(Option<string>, seq<string>)>, category: Option<string>, id: string): seq<(Option<string>, seq<string>)> {
    match Get(groups, category)
    case None => Put(groups, category, [id])
    case Some(ids) => Put(groups, category, ids + [id])
  }

  /** `get_services_by_category`: the loop over the catalog, one service at a time. */
  function ByCategory(services: Services): seq<(Option<string>, seq<string>)>
    decreases |services|
  {
    if |services| == 0 then []
    else
      var last := services[|services| - 1];
      AddTo(ByCategory(services[..|services| - 1]), CategoryOf(last.1), last.0)
  }

  /** The ids of one category, in catalog order: the reference the grouping is measured against. */
  function IdsIn(services: Services, category: Option<string>): (ids: seq<string>)
    ensures |ids| <= |services|
    decreases |services|
  {
    if |services| == 0 then []
    else
      var last := services[|services| - 1];
      IdsIn(services[..|services| - 1], category) + (if CategoryOf(last.1) == category then [last.0] else [])
  }

  /** The categories of the catalog, each at its first occurrence. */
  function FirstOccurrences<T(==,!new)>(categories: seq<T>): (r: seq<T>)
    ensures Distinct(r)
    ensures forall c :: c in r <==> c in categories
    decreases |categories|
  {
    if |categories| == 0 then []
    else
      var prefix := FirstOccurrences(categories[..|categories| - 1]);
      var c := categories[|categories| - 1];
      assert categories == categories[..|categories| - 1] + [c];
      if c in prefix then prefix else prefix + [c]
  }

  function Categories(services: Services): (r: seq<Option<string>>)
    ensures |r| == |services|
    ensures forall i | 0 <= i < |services| :: r[i] == CategoryOf(services[i].1)
  {
    seq(|services|, i requires 0 <= i < |services| => CategoryOf(services[i].1))
  }

  /**
   * The list stored under a category is exactly that category's ids in catalog
   * order, and a category with no services has no list.
   */
  lemma {:induction false} ByCategoryGet(services: Services, category: Option<string>)
    ensures Get(ByCategory(services), category) ==
      if IdsIn(services, category) == [] then None else Some(IdsIn(services, category))
    decreases |services|
  {
    if |services| > 0 {
      var prefix := services[..|services| - 1];
      var last := services[|services| - 1];
      var groups := ByCategory(prefix);
      var c := CategoryOf(last.1);
      ByCategoryGet(prefix, category);
      ByCategoryGet(prefix, c);
      assert IdsIn(services, category) ==
        IdsIn(prefix, category) + (if c == category then [last.0] else []);
      if c != category {
        assert IdsIn(services, category) == IdsIn(prefix, category);
      }
      match Get(groups, c)
      case None =>
        GetPut(groups, c, [last.0], category);
        if c == category {
          assert IdsIn(prefix, c) == [];
          assert IdsIn(services, category) == [last.0];
        }
      case Some(ids) =>
        GetPut(groups, c, ids + [last.0], category);
    }
  }

  /** The categories appear in the order each is first seen in the catalog. */
  lemma {:induction false} ByCategoryKeys(services: Services)
    ensures Keys(ByCategory(services)) == FirstOccurrences(Categories(services))
    decreases |services|
  {
    if |services| > 0 {
      var prefix := services[..|services| - 1];
      var last := services[|services| - 1];
      var c := CategoryOf(last.1);
      ByCategoryKeys(prefix);
      CategoriesSnoc(services);
      AddToKeys(ByCategory(prefix), c, last.0);
      FirstOccurrencesSnoc(Categories(prefix), c);
    }
  }

  lemma CategoriesSnoc(services: Services)
    requires |services| > 0
    ensures Categories(services) ==
      Categories(services[..|services| - 1]) + [CategoryOf(services[|services| - 1].1)]
  {
  }

  /** Filing an id under a category adds that category to the keys only when it is new. */
  lemma AddToKeys(groups: seq<(Option<string>, seq<string>)>, category: Option<string>, id: string)
    ensures Keys(AddTo(groups, category, id)) ==
      if category in Keys(groups) then Keys(groups) else Keys(groups) + [category]
  {
    GetKeys(groups, category);
    match Get(groups, category)
    case None => KeysPut(groups, category, [id]);
    case Some(ids) => KeysPut(groups, category, ids + [id]);
  }

  lemma FirstOccurrencesSnoc<T(!new)>(categories: seq<T>, c: T)
    ensures FirstOccurrences(categories + [c]) ==
      var prefix := FirstOccurrences(categories);
      if c in prefix then prefix else prefix + [c]
  {
    assert (categories + [c])[..|categories|] == categories;
  }

  /** A service id is in a category's list exactly when the catalog files it there. */
  lemma {:induction false} IdsInMembers(services: Services, category: Option<string>, id: string)
    ensures id in IdsIn(services, category) <==>
      exists i | 0 <= i < |services| :: services[i].0 == id && CategoryOf(services[i].1) == category
    decreases |services|
  {
    if |services| > 0 {
      var prefix := services[..|services| - 1];
      IdsInMembers(prefix, category, id);
      if id in IdsIn(services, category) && id !in IdsIn(prefix, category) {
        var i := |services| - 1;
        assert services[i].0 == id && CategoryOf(services[i].1) == category;
      }
      if exists i | 0 <= i < |services| :: services[i].0 == id && CategoryOf(services[i].1) == category {
        var i :| 0 <= i < |services| && services[i].0 == id && CategoryOf(services[i].1) == category;
        if i < |services| - 1 {
          assert prefix[i] == services[i];
        }
      }
    }
  }

  /**
   * In a catalog where each id appears once, every service sits in exactly one
   * list: the one of its own category.
   */
  lemma GroupOfService(services: Services, i: nat, category: Option<string>)
    requires UniqueKeys(services) && i < |services|
    ensures var group := Get(ByCategory(services), category);
      (group.Some? && services[i].0 in group.value) <==> CategoryOf(services[i].1) == category
  {
    ByCategoryGet(services, category);
    IdsInMembers(services, category, services[i].0);
    if exists j | 0 <= j < |services| :: services[j].0 == services[i].0 && CategoryOf(services[j].1) == category {
      var j :| 0 <= j < |services| && services[j].0 == services[i].0 && CategoryOf(services[j].1) == category;
      assert Keys(services)[i] == Keys(services)[j];
    }
  }

  // ---------------------------------------------------------------------------
  // Required fields

  /** The fields `validate_services` requires of every service, in the order it checks them. */
  const RequiredFields: seq<string> := ["name", "description", "category", "image"]

  /** `field in service_data`, for the fields the check asks about. */
  predicate HasField(svc: Service, field: string) {
    field in svc.nulls ||
    match field
    case "name" => svc.name.Some?
    case "description" => svc.description.Some?
    case "category" => svc.category.Some?
    case "image" => svc.image.Some?
    case _ => true
  }

  /** The required fields a service lacks, in check order. */
  function MissingFields(svc: Service, fields: seq<string>): (r: seq<string>)
    ensures forall f :: f in r <==> f in fields && !HasField(svc, f)
  {
    if |fields| == 0 then []
    else (if HasField(svc, fields[0]) then [] else [fields[0]]) + MissingFields(svc, fields[1..])
  }

  /** A service with every required field. */
  predicate Complete(svc: Service) {
    HasField(svc, "name") && HasField(svc, "description") && HasField(svc, "category") && HasField(svc, "image")
  }

  /** The message for one missing field. */
  function Issue(id: string, field: string): string {
    "Service '" + id + "' missing required field: " + field
  }

  function IssuesFor(id: string, fields: seq<string>): (r: seq<string>)
    ensures |r| == |fields|
    ensures forall i | 0 <= i < |fields| :: r[i] == Issue(id, fields[i])
  {
    seq(|fields|, i requires 0 <= i < |fields| => Issue(id, fields[i]))
  }

  /** `validate_services`: one issue per missing field, service by service. */
  function ValidateServices(services: Services): seq<string>
    decreases |services|
  {
    if |services| == 0 then []
    else IssuesFor(services[0].0, MissingFields(services[0].1, RequiredFields)) + ValidateServices(services[1..])
  }

  /** A service lacks no required field exactly when it is complete. */
  lemma MissingNone(svc: Service)
    ensures MissingFields(svc, RequiredFields) == [] <==> Complete(svc)
  {
    var r := MissingFields(svc, RequiredFields);
    if !Complete(svc) {
      var f := if !HasField(svc, "name") then "name" else if !HasField(svc, "description") then "description"
        else if !HasField(svc, "category") then "category" else "image";
      assert f in RequiredFields && !HasField(svc, f);
      assert f in r;
    }
    if |r| > 0 {
      var f := r[0];
      assert f in r;
      assert f in RequiredFields && !HasField(svc, f);
      assert f == "name" || f == "description" || f == "category" || f == "image";
    }
  }

  /** The check finds nothing exactly when every service is complete. */
  lemma {:induction false} ValidateEmpty(services: Services)
    ensures ValidateServices(services) == [] <==> forall i | 0 <= i < |services| :: Complete(services[i].1)
    decreases |services|
  {
    if |services| > 0 {
      MissingNone(services[0].1);
      ValidateEmpty(services[1..]);
      var head := IssuesFor(services[0].0, MissingFields(services[0].1, RequiredFields));
      assert ValidateServices(services) == head + ValidateServices(services[1..]);
      if Complete(services[0].1) && forall i | 0 <= i < |services[1..]| :: Complete(services[1..][i].1) {
        forall i | 0 <= i < |services| ensures Complete(services[i].1) {
          if i > 0 {
            assert services[i] == services[1..][i - 1];
          }
        }
      }
      if forall i | 0 <= i < |services| :: Complete(services[i].1) {
        assert Complete(services[0].1);
        forall i | 0 <= i < |services[1..]| ensures Complete(services[1..][i].1) {
          assert services[1..][i] == services[i + 1];
        }
      }
    }
  }

  /** Each missing field of each service has its issue. */
  lemma {:induction false} ValidateReports(services: Services, i: nat, f: string)
    requires i < |services| && f in RequiredFields && !HasField(services[i].1, f)
    ensures Issue(services[i].0, f) in ValidateServices(services)
    decreases |services|
  {
    var fields := MissingFields(services[0].1, RequiredFields);
    var head := IssuesFor(services[0].0, fields);
    assert ValidateServices(services) == head + ValidateServices(services[1..]);
    if i == 0 {
      assert f in fields;
      var k :| 0 <= k < |fields| && fields[k] == f;
      assert head[k] == Issue(services[0].0, f);
    } else {
      assert services[1..][i - 1] == services[i];
      ValidateReports(services[1..], i - 1, f);
    }
  }

  /** Every issue names a service of the catalog and a required field it lacks. */
  lemma {:induction false} ValidateSound(services: Services, issue: string)
    requires issue in ValidateServices(services)
    ensures exists i, f | 0 <= i < |services| && f in RequiredFields && !HasField(services[i].1, f) ::
      issue == Issue(services[i].0, f)
    decreases |services|
  {
    var fields := MissingFields(services[0].1, RequiredFields);
    var head := IssuesFor(services[0].0, fields);
    assert ValidateServices(services) == head + ValidateServices(services[1..]);
    if issue in head {
      var k :| 0 <= k < |head| && head[k] == issue;
      assert fields[k] in fields;
      assert issue == Issue(services[0].0, fields[k]);
    } else {
      ValidateSound(services[1..], issue);
      var i, f :| 0 <= i < |services[1..]| && f in RequiredFields && !HasField(services[1..][i].1, f) &&
        issue == Issue(services[1..][i].0, f);
      assert services[i + 1] == services[1..][i];
    }
  }

  // ---------------------------------------------------------------------------
  // Loading once

  /** A top-level key of the document: left out, written with a null, or given a value. */
  datatype YamlSection<T> = Absent | Null | Given(value: T)

  /** What `yaml.safe_load` returns for the file. */
  datatype YamlDocument =
    | EmptyDocument
    | NotMapping
    | Mapping(services: YamlSection<Services>, categories: YamlSection<seq<(string, string)>>)

  /** `data.get(key, {})`: an absent key gives the empty mapping, a null one `None`. */
  function SectionValue<T>(section: YamlSection<seq<T>>): (r: Option<seq<T>>)
    ensures r.None? <==> section.Null?
    ensures section.Given? ==> r == Some(section.value)
    ensures section.Absent? ==> r == Some([])
  {
    match section
    case Absent => Some([])
    case Null => None
    case Given(v) => Some(v)
  }

  /** The services file on disk. `Unreadable` stands for a YAML syntax or I/O error. */
  datatype YamlFile = Missing | Unreadable | Readable(document: YamlDocument)

  /**
   * The exceptions `_load_yaml_data` lets escape: `FileNotFoundError`,
   * `RuntimeError` wrapping a parse or I/O failure, and the `AttributeError` that
   * `.get` raises on a document that is empty or not a mapping. `NullServices` is
   * the `AttributeError` raised later, when a null `services` section is iterated.
   */
  datatype LoadError = FileNotFound | LoadFailed | NoMapping | NullServices

  /** The loader's state. A section the file leaves null is held as `None`. */
  datatype Loader = Loader(services: Option<Services>, categories: Option<seq<(string, string)>>, loaded: bool)

  const Unloaded: Loader := Loader(Some([]), Some([]), false)

  /** `_load_yaml_data`: reads the file only while nothing has been loaded. */
  function LoadYamlData(loader: Loader, file: YamlFile): (r: Result<Loader, LoadError>)
    ensures loader.loaded ==> r == Ok(loader)
    ensures r.Ok? ==> r.value.loaded
    ensures !loader.loaded && r.Ok? ==> file.Readable? && file.document.Mapping?
  {
    if loader.loaded then Ok(loader)
    else match file
      case Missing => Err(FileNotFound)
      case Unreadable => Err(LoadFailed)
      case Readable(EmptyDocument) => Err(NoMapping)
      case Readable(NotMapping) => Err(NoMapping)
      case Readable(Mapping(services, categories)) =>
        Ok(Loader(SectionValue(services), SectionValue(categories), true))
  }

  /**
   * Once a load succeeds, every later load returns the same data whatever the file
   * then holds; a failed load leaves nothing cached.
   */
  lemma LoadOnce(loader: Loader, first: YamlFile, later: YamlFile)
    ensures LoadYamlData(loader, first).Ok? ==>
      LoadYamlData(LoadYamlData(loader, first).value, later) == LoadYamlData(loader, first)
    ensures !loader.loaded && LoadYamlData(loader, first).Ok? ==>
      LoadYamlData(loader, first).value.services == SectionValue(first.document.services)
      && LoadYamlData(loader, first).value.categories == SectionValue(first.document.categories)
  {
  }

  /** The outcome for each kind of file, on a loader that has loaded nothing yet. */
  lemma LoadOutcomes(loader: Loader)
    requires !loader.loaded
    ensures LoadYamlData(loader, Missing) == Err(FileNotFound)
    ensures LoadYamlData(loader, Unreadable) == Err(LoadFailed)
    ensures LoadYamlData(loader, Readable(EmptyDocument)) == Err(NoMapping)
    ensures LoadYamlData(loader, Readable(NotMapping)) == Err(NoMapping)
    ensures LoadYamlData(loader, Readable(Mapping(Absent, Absent))) == Ok(Loader(Some([]), Some([]), true))
    ensures LoadYamlData(loader, Readable(Mapping(Null, Null))) == Ok(Loader(None, None, true))
  {
  }

  /** `get_services`, loading first. A null section comes back as `None`. */
  function GetServices(loader: Loader, file: YamlFile): (r: Result<(Loader, Option<Services>), LoadError>)
    ensures r.Ok? ==> r.value.0.loaded && r.value.1 == r.value.0.services
    ensures loader.loaded ==> r == Ok((loader, loader.services))
  {
    var l :- LoadYamlData(loader, file);
    Ok((l, l.services))
  }

  /**
   * `self.services.items()`, the first step of `get_services_by_category` and
   * `validate_services`: the catalog, or `AttributeError` when the section was null.
   */
  function ServiceItems(loader: Loader): (r: Result<Services, LoadError>)
    ensures r.Err? <==> loader.services.None?
    ensures r.Ok? ==> r.value == loader.services.value
  {
    if loader.services.None? then Err(NullServices) else Ok(loader.services.value)
  }

  /**
   * A file whose `services` key is null loads without complaint, but the grouping and
   * the required-field check then raise; a file without the key gives an empty catalog.
   */
  lemma NullServicesRaise(loader: Loader, categories: YamlSection<seq<(string, string)>>)
    requires !loader.loaded
    ensures var l := LoadYamlData(loader, Readable(Mapping(Null, categories)));
      l.Ok? && GetServices(loader, Readable(Mapping(Null, categories))) == Ok((l.value, None))
      && ServiceItems(l.value) == Err(NullServices)
    ensures var l := LoadYamlData(loader, Readable(Mapping(Absent, categories)));
      l.Ok? && ServiceItems(l.value) == Ok([])
  {
  }
}
