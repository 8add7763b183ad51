/**
 * The declarative configuration element a descriptor is read from, seen as a
 * value: its tag name, its attributes and its child elements in document order.
 */
module Configuration {
  import opened Wrappers

  datatype ConfigElement = ConfigElement(
    name: string,
    attributes: map<string, string>,
    children: seq<ConfigElement>)

  /** `getAttribute(key)`: the attribute's value, or `None` (Java `null`) when it is absent. */
  function GetAttribute(cfg: ConfigElement, key: string): Option<string>
  {
    if key in cfg.attributes then Some(cfg.attributes[key]) else None
  }

  /** `getChildren(kind)`: the child elements with that tag name, in document order. */
  function GetChildren(cfg: ConfigElement, kind: string): seq<ConfigElement>
  {
    ChildrenNamed(cfg.children, kind)
  }

  function ChildrenNamed(elements: seq<ConfigElement>, kind: string): seq<ConfigElement>
  {
    if elements == [] then []
    else (if elements[0].name == kind then [elements[0]] else []) + ChildrenNamed(elements[1..], kind)
  }
}
