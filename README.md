# Generic meta model descriptor

A model of DBeaver's `GenericMetaModelDescriptor`, the plugin binding that the generic database plugin uses to pick a meta model for a driver. A descriptor is read from a configuration element. It holds:

- an identifier;
- a table from object kind to `GenericMetaObject`;
- a list of driver class names;
- a reference to the meta model implementation class.

It instantiates that class lazily and caches the instance.

Files:

- `wrappers.dfy`: `Option` (Java `null`) and `Result` (a thrown `DBException`).
- `java_split.dfy`: Java's `String.split(",")` with limit 0, defined from the list of all comma-separated segments.
- `configuration.dfy`: the configuration element as a value with a tag name, attributes and children.
- `generic_meta.dfy`: the descriptor class, the meta model class with its `descriptor` back-reference, and the pure specification of the object table and the driver list.

Class loading is a pair of parameters to `GetInstance`:

- `resolve` stands for `ObjectType.getObjectClass(GenericMetaModel.class)`; `None` means it returned `null`.
- `instantiates` tells whether `newInstance()` on the resolved class returns or throws.

`GenericMetaObject.getType()` is the parameter `typeOf` of the configured constructor.

The default constructor never assigns `id` or `driverClass`. So both fields are `Option`s, and that constructor leaves them `None`, even though `getDriverClass` is annotated `@NotNull`.

`getId` and `getDriverClass` are the functions `GetId` and `GetDriverClass`. Each returns one field, and the two constructors' contracts state what those fields hold.

## Model

| member | source | states |
|---|---|---|
| GenericMeta.GenericMetaModelDescriptor.constructor | plugins/org.jkiss.dbeaver.ext.generic/src/org/jkiss/dbeaver/ext/generic/model/meta/GenericMetaModelDescriptor.java:42-47 | The default descriptor is bound to the base `GenericMetaModel` class. It already caches a fresh base instance whose `descriptor` is this descriptor. `id` and `driverClass` stay absent, and the object table is empty. |
| GenericMeta.GenericMetaModelDescriptor.FromConfig | plugins/org.jkiss.dbeaver.ext.generic/src/org/jkiss/dbeaver/ext/generic/model/meta/GenericMetaModelDescriptor.java:49-69 | The configured descriptor takes `id` from the `id` attribute. Its table is the last-write-wins table of its `object` children, filled by the loop. `driverClass` is always present and equals the parsed `driverClass` attribute. Its type comes from the `class` attribute. No instance is cached. |
| GenericMeta.ObjectTable | plugins/org.jkiss.dbeaver.ext.generic/src/org/jkiss/dbeaver/ext/generic/model/meta/GenericMetaModelDescriptor.java:54-60 | Every entry is stored under its own object type and is one of the children's meta objects. |
| GenericMeta.ObjectTableKeys | plugins/org.jkiss.dbeaver.ext.generic/src/org/jkiss/dbeaver/ext/generic/model/meta/GenericMetaModelDescriptor.java:54-60 | The table's keys are exactly the types of the `object` children: every key comes from some child, and every child's type is a key. |
| GenericMeta.ObjectTableLastWins | plugins/org.jkiss.dbeaver.ext.generic/src/org/jkiss/dbeaver/ext/generic/model/meta/GenericMetaModelDescriptor.java:56-59 | Under each type, the table holds the last child of that type in document order, so a later duplicate replaces an earlier one. |
| GenericMeta.DriverClassList | plugins/org.jkiss.dbeaver.ext.generic/src/org/jkiss/dbeaver/ext/generic/model/meta/GenericMetaModelDescriptor.java:61-66 | An absent or empty attribute gives the empty list. Otherwise the result is exactly `split(",")` of the attribute, so `","` gives `[]`. No element contains a comma, and joining the elements with commas gives the attribute minus its trailing commas. A value without a comma gives a one-element list. |
| GenericMeta.GenericMetaModelDescriptor.GetId | plugins/org.jkiss.dbeaver.ext.generic/src/org/jkiss/dbeaver/ext/generic/model/meta/GenericMetaModelDescriptor.java:71-74 | Returns the identifier field. It is absent for the default descriptor, and after `FromConfig` it is the `id` attribute, absent when the attribute is. |
| GenericMeta.GenericMetaModelDescriptor.GetDriverClass | plugins/org.jkiss.dbeaver.ext.generic/src/org/jkiss/dbeaver/ext/generic/model/meta/GenericMetaModelDescriptor.java:76-79 | Returns the driver class list. Despite `@NotNull`, it is `None` for the default descriptor, which never assigns the field. After `FromConfig` it is always `Some`. On a valid descriptor no name in it holds a comma. |
| GenericMeta.GenericMetaModelDescriptor.GetObject | plugins/org.jkiss.dbeaver.ext.generic/src/org/jkiss/dbeaver/ext/generic/model/meta/GenericMetaModelDescriptor.java:81-84 | Returns the entry stored under exactly the given key, or `None` when the key is absent. It reads the descriptor and changes nothing. |
| GenericMeta.GenericMetaModelDescriptor.GetInstance | plugins/org.jkiss.dbeaver.ext.generic/src/org/jkiss/dbeaver/ext/generic/model/meta/GenericMetaModelDescriptor.java:86-101 | With an instance cached, returns it and changes nothing, whatever the class loader would do. Otherwise, if resolution gives nothing, fails with `ClassNotResolved` and caches nothing. If the constructor throws, fails with `InstantiationFailed` and caches nothing. Otherwise caches a fresh instance of the resolved class, points its `descriptor` back here and returns it. The invariant `Valid` is preserved: table keys, comma-free driver names and the back-reference. |
| GenericMeta.GetInstanceTwice | plugins/org.jkiss.dbeaver.ext.generic/src/org/jkiss/dbeaver/ext/generic/model/meta/GenericMetaModelDescriptor.java:86-101 | Over two successive calls, a success is returned again unchanged. A failure is not cached, so the second call starts over. It fails with `ClassNotResolved` or `InstantiationFailed` when the class still cannot be resolved or constructed, and otherwise returns a fresh instance that points back to the descriptor. |
| JavaSplit.Split | plugins/org.jkiss.dbeaver.ext.generic/src/org/jkiss/dbeaver/ext/generic/model/meta/GenericMetaModelDescriptor.java:65 | `split(",")` returns a prefix of the segment list, and only empty segments are cut off. When the input has a comma, the last element is non-empty. A string without a comma is returned whole. |
| JavaSplit.DropTrailingEmpty | plugins/org.jkiss.dbeaver.ext.generic/src/org/jkiss/dbeaver/ext/generic/model/meta/GenericMetaModelDescriptor.java:65 | Removes exactly the run of empty segments at the end, so the result is a prefix whose last element is non-empty. |
| JavaSplit.JoinSplit | plugins/org.jkiss.dbeaver.ext.generic/src/org/jkiss/dbeaver/ext/generic/model/meta/GenericMetaModelDescriptor.java:65 | Round trip: joining the result of `split(",")` with commas gives the input minus its trailing commas. |
| JavaSplit.SplitIsCommaFree | plugins/org.jkiss.dbeaver.ext.generic/src/org/jkiss/dbeaver/ext/generic/model/meta/GenericMetaModelDescriptor.java:65 | No element of the result of `split(",")` contains a comma. |
| JavaSplit.JoinSegments | plugins/org.jkiss.dbeaver.ext.generic/src/org/jkiss/dbeaver/ext/generic/model/meta/GenericMetaModelDescriptor.java:65 | Joining the segments gives back the input exactly, with nothing trimmed or lost. |
| JavaSplit.SegmentsOfJoin | plugins/org.jkiss.dbeaver.ext.generic/src/org/jkiss/dbeaver/ext/generic/model/meta/GenericMetaModelDescriptor.java:65 | Segments are unique: any non-empty list of comma-free strings is the segment list of its own join. |
| JavaSplit.SegmentsAreCommaFree | plugins/org.jkiss.dbeaver.ext.generic/src/org/jkiss/dbeaver/ext/generic/model/meta/GenericMetaModelDescriptor.java:65 | No segment contains a comma. |
| JavaSplit.SplitKeepsInteriorSegments | plugins/org.jkiss.dbeaver.ext.generic/src/org/jkiss/dbeaver/ext/generic/model/meta/GenericMetaModelDescriptor.java:65 | `"a,,b"` splits to `["a", "", "b"]`, and `" a , b"` splits to `[" a ", " b"]`, untrimmed. |
| JavaSplit.SplitKeepsLeadingEmpty | plugins/org.jkiss.dbeaver.ext.generic/src/org/jkiss/dbeaver/ext/generic/model/meta/GenericMetaModelDescriptor.java:65 | `",a"` splits to `["", "a"]`. |
| JavaSplit.SplitDropsTrailingEmpty | plugins/org.jkiss.dbeaver.ext.generic/src/org/jkiss/dbeaver/ext/generic/model/meta/GenericMetaModelDescriptor.java:65 | `"a,b,"` splits to `["a", "b"]`, and `","` splits to `[]`. |

## Left out

- `IConfigurationElement` and the `AbstractDescriptor` base class: the element is a plain value (`Configuration.ConfigElement`), and the base-class constructor calls (`super(...)`) are not modelled.
- `ObjectType` internals: `getObjectClass`, its class cache and its subtype check against `GenericMetaModel` are not part of this model. They are the `resolve` parameter. The model assumes that resolution yields `None` for a missing or wrongly-typed class; whether the real method returns `null` or throws in that case cannot be seen here.
- `Class.newInstance`: the `instantiates` parameter says only whether it succeeds. The instance is a `GenericMetaModel` tagged with the class it was made from.
- `GenericMetaObject` and `GenericMetaModel` internals: only the object's `getType()` key and the model's `descriptor` field are kept. A `null` type key, which a Java `HashMap` would accept, is not modelled.
- Exception messages and causes: the two failures are told apart only by `InstanceError`, which carries the type name or the resolved class.
- The `contributorConfig` field: it is stored but never read.
- Thread safety of the check-then-set in `getInstance`: the source has no synchronisation, and the model is sequential.
