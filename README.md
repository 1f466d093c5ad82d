# interface-processor, modelled in Dafny

This project models the core of `interface-processor`, a Java annotation processor. The processor does two things:

- it walks an interface annotated with `@GenerateClass` through `javax.lang.model` and collects its properties, fields and leftover methods into a definition;
- it writes a Java implementation class for that definition as source text.

The model covers these parts of the processor:

- **The supertype walker** (`PropertyVisitor`, module `PropertyVisitor`).
  - A depth-first walk over an acyclic map of type declarations, with a level counter and a super-interface filter given as a predicate.
  - Every method is classified as a getter, a setter, an `is`-getter or a plain method.
  - A getter and a setter with the same name and type, found at different levels, are merged into one property.
  - The root's qualified name is split into package and simple name.
  - Each imperative method of the walker is a `method` on a `PropertyVisitor` class. It is proved against a functional specification (`VisitTypeSpec`, `MembersSpec`, …) over value snapshots of the definition, and the lemmas are stated about those specifications.
- **The definition tables.**
  - `DefautClassDefinition` (module `ClassDefinitions`) keeps lists of fields, properties, methods and type parameters. It pairs fields with properties in place, finds entries by first match, and answers the inner-field and ignored-property queries.
  - `DefaultInterfaceDefinition` (module `InterfaceDefinitions`) does the same without fields.
  - Both are classes whose `seq` fields their methods reassign. The copying getters return fresh arrays.
- **The mutable records.**
  - `DefaultProperty` of the class processor (`ClassProperties`).
  - `DefaultProperty` of the interface processor (`InterfaceProperties`).
  - `DefaultField` (`ClassFields`).
  - Each is a class with the source's fields. Every setter is stated against a value snapshot (`View()`), so it is visible that it changes its own field and nothing else, and that `readable`/`writable` follow the reader/writer.
- **The code generator** (`InterfaceProcessor`).
  - Every `generate*` method appends to a Java `Writer` and threads the indentation counter `shift`. Here the Writer is a sequence of output lines that each method takes and returns: `written == out + Section(...)`.
  - The returned indentation level is stated as well; every section returns the level it was given.
  - The text of each section is a function in `ProcessorText`. The lemmas there state the choices the generator makes: the abstract header, the second constructor, accessor naming, unlock before fire, the per-type `equals`/`hashCode` lines, the `toString` separators, package and class name resolution, reserved-word escaping and indentation.
- **The naming and string helpers.** These are the class-name resolvers (`ClassNameResolvers`), `Strings.capitalize`/`uncapitalize` (`Strings`), the reserved-word set behind `Objects.isPreserved` (`ReservedWords`), and the `Modifier`/`FieldModifier` text tables (`AccessModifiers`, `FieldModifiers`).

The compiler's type model is a small datatype (`LangModel`): primitive kinds and declared types, compared by equality, the way `Types.isSameType` compares them. `Wrappers` holds `Option`/`Result`, and `Lookup` holds the first-match search that every `find*` method shares.

## Model

| member | source | states |
|---|---|---|
| AccessModifiers.Keyword | src/main/java/com/shelfmap/classprocessor/Modifier.java:8 | the keyword is empty exactly for DEFAULT |
| AccessModifiers.ValueOf | src/main/java/com/shelfmap/classprocessor/Modifier.java:7-8 | a constant looked up by name carries that name |
| AccessModifiers.KeywordInjective | src/main/java/com/shelfmap/classprocessor/Modifier.java:8 | distinct constants have distinct keywords |
| AccessModifiers.ValueOfName | src/main/java/com/shelfmap/classprocessor/Modifier.java:7-8 | every constant is found again by its name |
| FieldModifiers.Keyword | src/main/java/com/shelfmap/interfaceprocessor/FieldModifier.java:8 | the keyword is empty exactly for DEFAULT and is never "public" |
| FieldModifiers.ValueOf | src/main/java/com/shelfmap/interfaceprocessor/FieldModifier.java:7-8 | a constant looked up by name carries that name |
| FieldModifiers.KeywordInjective | src/main/java/com/shelfmap/interfaceprocessor/FieldModifier.java:8 | distinct constants have distinct keywords |
| FieldModifiers.ValueOfName | src/main/java/com/shelfmap/interfaceprocessor/FieldModifier.java:7-8 | every constant is found again by its name |
| FieldModifiers.PublicIsNotAFieldModifier | src/main/java/com/shelfmap/interfaceprocessor/FieldModifier.java:8 | there is no PUBLIC constant |
| Strings.ToUpper | src/main/java/com/shelfmap/classprocessor/util/Strings.java:33 | lower-case letters become upper-case; every other character is unchanged |
| Strings.ToLower | src/main/java/com/shelfmap/classprocessor/util/Strings.java:44 | upper-case letters become lower-case; every other character is unchanged |
| Strings.Capitalize | src/main/java/com/shelfmap/classprocessor/util/Strings.java:27-36 | the length is kept, the first character is upper-cased and the rest is copied |
| Strings.Uncapitalize | src/main/java/com/shelfmap/classprocessor/util/Strings.java:38-47 | the length is kept, the first character is lower-cased and the rest is copied |
| Strings.CapitalizeOrNull | src/main/java/com/shelfmap/classprocessor/util/Strings.java:28 | null maps to null; any other string is capitalized |
| Strings.UncapitalizeOrNull | src/main/java/com/shelfmap/classprocessor/util/Strings.java:39 | null maps to null; any other string is uncapitalized |
| Strings.CapitalizeIdempotent | src/main/java/com/shelfmap/classprocessor/util/Strings.java:27-36 | capitalizing twice is capitalizing once |
| Strings.UncapitalizeIdempotent | src/main/java/com/shelfmap/classprocessor/util/Strings.java:38-47 | uncapitalizing twice is uncapitalizing once |
| Strings.UncapitalizeCapitalize | src/main/java/com/shelfmap/classprocessor/util/Strings.java:27-47 | uncapitalize undoes capitalize exactly when the string is empty or does not start with an upper-case letter |
| Strings.UncapitalizeCapitalizeLower | src/main/java/com/shelfmap/classprocessor/util/Strings.java:27-47 | uncapitalize undoes capitalize on a string that starts with a lower-case letter |
| ReservedWords.ListedIff | src/main/java/com/shelfmap/classprocessor/util/Objects.java:137-139 | the search over the word list is membership in it, so the repeated "volatile" changes nothing |
| ReservedWords.InitialIsLowerCase | src/main/java/com/shelfmap/classprocessor/util/Objects.java:41-64 | every reserved word starts with a lower-case letter |
| ReservedWords.MembershipIsCaseSensitive | src/main/java/com/shelfmap/classprocessor/util/Objects.java:137-139 | "int" is reserved and "Int" is not |
| ReservedWords.EntryIsPreserved | src/main/java/com/shelfmap/classprocessor/util/Objects.java:37-65 | every entry of the list is reserved |
| ReservedWords.LiteralsArePreserved | src/main/java/com/shelfmap/classprocessor/util/Objects.java:43-52 | "true", "false" and "null" are reserved |
| ReservedWords.NoWordStartsWithUnderscore | src/main/java/com/shelfmap/classprocessor/util/Objects.java:41-64 | no word starting with '_' is reserved |
| ClassNameResolvers.ClassNameFor | src/main/java/com/shelfmap/classprocessor/DefaultClassNameResolver.java:12-14 | prefix hook + capitalized name + suffix hook, with "null" for a null name |
| ClassNameResolvers.AbstractClassNameFor | src/main/java/com/shelfmap/classprocessor/DefaultClassNameResolver.java:17-19 | abstract prefix hook + capitalized name + abstract suffix hook |
| ClassNameResolvers.DefaultNames | src/main/java/com/shelfmap/classprocessor/DefaultClassNameResolver.java:12-24 | with the default hooks the names are Capitalized+"Impl" and "Abstract"+Capitalized, of lengths n+4 and n+8, and they differ |
| ClassNameResolvers.OnlyCapitalizedFormMatters | src/main/java/com/shelfmap/classprocessor/DefaultClassNameResolver.java:12-19 | both names depend only on the capitalized form of the name |
| ClassNameResolvers.ParameterCheck | src/main/java/com/shelfmap/classprocessor/RemovePrefixClassNameResolver.java:24-31 | null, empty, one-character and non-"I" names are rejected in that order, and each error happens exactly for its case |
| ClassNameResolvers.RemovePrefixClassNameFor | src/main/java/com/shelfmap/classprocessor/RemovePrefixClassNameResolver.java:11-15 | fails exactly when the check fails; otherwise the capitalized name without its "I", of length n-1 |
| ClassNameResolvers.RemovePrefixAbstractClassNameFor | src/main/java/com/shelfmap/classprocessor/RemovePrefixClassNameResolver.java:18-22 | fails exactly when the check fails; otherwise "Abstract" + the capitalized rest, of length n+7 |
| ClassNameResolvers.RemovePrefixExamples | src/main/java/com/shelfmap/classprocessor/RemovePrefixClassNameResolver.java:24-43 | "IWidget" gives "Widget" and "AbstractWidget"; "Widget", "I", "" and null are rejected with their own errors |
| Lookup.FirstMatch | src/main/java/com/shelfmap/classprocessor/impl/DefautClassDefinition.java:99-106 | the index of the first entry with the key, or -1 exactly when there is none |
| Lookup.FirstMatchAppend | src/main/java/com/shelfmap/classprocessor/impl/DefautClassDefinition.java:86 | appending entries after a match does not change the match |
| Lookup.FirstMatchAt | src/main/java/com/shelfmap/classprocessor/impl/DefautClassDefinition.java:99-106 | an entry with the key and none before it is the first match |
| ClassFields.InitialFieldView | src/main/java/com/shelfmap/classprocessor/impl/DefaultField.java:27-34 | a new field is unpaired, kept "HOLD", "PUBLIC", not ignored, not read-only, with a null real type |
| ClassFields.DefaultsMatchFieldAnnotation | src/main/java/com/shelfmap/classprocessor/annotation/Field.java:32-36 | the field defaults agree with the @Field defaults except realType, which is null rather than Void |
| ClassFields.Field.constructor | src/main/java/com/shelfmap/classprocessor/impl/DefaultField.java:36-39 | name and type as given, every other attribute at its default |
| ClassFields.Field.SetPropertyDefined | src/main/java/com/shelfmap/classprocessor/impl/DefaultField.java:57-59 | only the pairing flag changes |
| ClassFields.Field.SetRetainType | src/main/java/com/shelfmap/classprocessor/impl/DefaultField.java:67-69 | only the retain type changes |
| ClassFields.Field.SetIgnored | src/main/java/com/shelfmap/classprocessor/impl/DefaultField.java:77-79 | only the ignore flag changes |
| ClassFields.Field.SetRealType | src/main/java/com/shelfmap/classprocessor/impl/DefaultField.java:87-89 | only the real type changes |
| ClassFields.Field.SetReadOnly | src/main/java/com/shelfmap/classprocessor/impl/DefaultField.java:97-99 | only the read-only flag changes |
| ClassFields.Field.SetMethodModifier | src/main/java/com/shelfmap/classprocessor/impl/DefaultField.java:107-109 | only the method modifier changes |
| ClassProperties.InitialPropertyView | src/main/java/com/shelfmap/classprocessor/impl/DefaultProperty.java:28-38 | readable and writable follow reader and writer; unpaired, "HOLD", not ignored, null real type |
| ClassProperties.WithReader | src/main/java/com/shelfmap/classprocessor/impl/DefaultProperty.java:121-124 | the reader is set, readable follows it, everything else is kept, and the coupling is preserved |
| ClassProperties.WithWriter | src/main/java/com/shelfmap/classprocessor/impl/DefaultProperty.java:132-135 | the writer is set, writable follows it, everything else is kept, and the coupling is preserved |
| ClassProperties.Property.constructor | src/main/java/com/shelfmap/classprocessor/impl/DefaultProperty.java:40-48 | the new property's state is the initial snapshot |
| ClassProperties.Property.SetReader | src/main/java/com/shelfmap/classprocessor/impl/DefaultProperty.java:121-124 | the state becomes WithReader of the old state |
| ClassProperties.Property.SetWriter | src/main/java/com/shelfmap/classprocessor/impl/DefaultProperty.java:132-135 | the state becomes WithWriter of the old state |
| ClassProperties.Property.SetFieldDefined | src/main/java/com/shelfmap/classprocessor/impl/DefaultProperty.java:71-73 | only the pairing flag changes |
| ClassProperties.Property.SetRetainType | src/main/java/com/shelfmap/classprocessor/impl/DefaultProperty.java:91-93 | only the retain type changes |
| ClassProperties.Property.SetRealType | src/main/java/com/shelfmap/classprocessor/impl/DefaultProperty.java:101-103 | only the real type changes |
| ClassProperties.Property.SetIgnored | src/main/java/com/shelfmap/classprocessor/impl/DefaultProperty.java:111-113 | only the ignore flag changes |
| ClassProperties.Property.Equals | src/main/java/com/shelfmap/classprocessor/impl/DefaultProperty.java:154-197 | true exactly when the other property is not null and all eleven attributes agree |
| InterfaceProperties.InitialPropertyView | src/main/java/com/shelfmap/interfaceprocessor/impl/DefaultProperty.java:28-36 | readable and writable follow reader and writer; "HOLD", not ignored, null real type |
| InterfaceProperties.WithReader | src/main/java/com/shelfmap/interfaceprocessor/impl/DefaultProperty.java:103-106 | the reader is set, readable follows it, everything else is kept |
| InterfaceProperties.WithWriter | src/main/java/com/shelfmap/interfaceprocessor/impl/DefaultProperty.java:114-117 | the writer is set, writable follows it, everything else is kept |
| InterfaceProperties.Property.constructor | src/main/java/com/shelfmap/interfaceprocessor/impl/DefaultProperty.java:38-45 | the new property's state is the initial snapshot |
| InterfaceProperties.Property.SetRetainType | src/main/java/com/shelfmap/interfaceprocessor/impl/DefaultProperty.java:73-75 | only the retain type changes |
| InterfaceProperties.Property.SetRealType | src/main/java/com/shelfmap/interfaceprocessor/impl/DefaultProperty.java:83-85 | only the real type changes |
| InterfaceProperties.Property.SetIgnored | src/main/java/com/shelfmap/interfaceprocessor/impl/DefaultProperty.java:93-95 | only the ignore flag changes |
| InterfaceProperties.Property.SetReader | src/main/java/com/shelfmap/interfaceprocessor/impl/DefaultProperty.java:103-106 | the state becomes WithReader of the old state |
| InterfaceProperties.Property.SetWriter | src/main/java/com/shelfmap/interfaceprocessor/impl/DefaultProperty.java:114-117 | the state becomes WithWriter of the old state |
| InterfaceDefinitions.InterfaceDefinition.constructor | src/main/java/com/shelfmap/interfaceprocessor/impl/DefaultInterfaceDefinition.java:40-42 | no package, no name, empty lists |
| InterfaceDefinitions.InterfaceDefinition.SetPackage | src/main/java/com/shelfmap/interfaceprocessor/impl/DefaultInterfaceDefinition.java:50-52 | the package is stored verbatim |
| InterfaceDefinitions.InterfaceDefinition.SetInterfaceName | src/main/java/com/shelfmap/interfaceprocessor/impl/DefaultInterfaceDefinition.java:60-62 | the name is stored verbatim |
| InterfaceDefinitions.InterfaceDefinition.GetProperties | src/main/java/com/shelfmap/interfaceprocessor/impl/DefaultInterfaceDefinition.java:65-67 | a fresh array holding the properties in order |
| InterfaceDefinitions.InterfaceDefinition.AddProperties | src/main/java/com/shelfmap/interfaceprocessor/impl/DefaultInterfaceDefinition.java:70-73 | null changes nothing; otherwise the properties are appended in order |
| InterfaceDefinitions.InterfaceDefinition.FindProperty | src/main/java/com/shelfmap/interfaceprocessor/impl/DefaultInterfaceDefinition.java:76-83 | the first property with that name and type, or null when there is none |
| InterfaceDefinitions.InterfaceDefinition.GetMethods | src/main/java/com/shelfmap/interfaceprocessor/impl/DefaultInterfaceDefinition.java:86-88 | a fresh array holding the methods in order |
| InterfaceDefinitions.InterfaceDefinition.AddMethods | src/main/java/com/shelfmap/interfaceprocessor/impl/DefaultInterfaceDefinition.java:91-94 | null changes nothing; otherwise the methods are appended in order |
| InterfaceDefinitions.InterfaceDefinition.GetTypeParameterElements | src/main/java/com/shelfmap/interfaceprocessor/impl/DefaultInterfaceDefinition.java:97-99 | a fresh array holding the type parameters in order |
| InterfaceDefinitions.InterfaceDefinition.AddTypeParameters | src/main/java/com/shelfmap/interfaceprocessor/impl/DefaultInterfaceDefinition.java:102-105 | null changes nothing; otherwise the type parameters are appended in order |
| InterfaceDefinitions.InterfaceDefinition.IsHavingIgnoredProperty | src/main/java/com/shelfmap/interfaceprocessor/impl/DefaultInterfaceDefinition.java:107-112 | true exactly when some property is ignored |
| ClassDefinitions.AddFieldToState | src/main/java/com/shelfmap/classprocessor/impl/DefautClassDefinition.java:84-96 | the field is appended; when a property with its name and type exists, the field and the first such property (and only it) are marked paired, otherwise the field is appended unchanged; nothing else changes |
| ClassDefinitions.AddPropertyToState | src/main/java/com/shelfmap/classprocessor/impl/DefautClassDefinition.java:114-125 | the property is appended; when a field with its name and type exists, the property and the first such field (and only it) are marked paired, otherwise the property is appended unchanged; nothing else changes |
| ClassDefinitions.PairingIsOrderIndependent | src/main/java/com/shelfmap/classprocessor/impl/DefautClassDefinition.java:88-95 | when neither the field's nor the property's key is in the table yet, adding a field and a property with the same key gives the same state in either order: both appended, both paired |
| ClassDefinitions.InnerFields | src/main/java/com/shelfmap/classprocessor/impl/DefautClassDefinition.java:138-147 | exactly the fields that have no property with the same name and type |
| ClassDefinitions.ClassDefinition.constructor | src/main/java/com/shelfmap/classprocessor/impl/DefautClassDefinition.java:44-46 | an empty definition |
| ClassDefinitions.ClassDefinition.SetElementType | src/main/java/com/shelfmap/classprocessor/impl/DefautClassDefinition.java:54-56 | the element type is stored |
| ClassDefinitions.ClassDefinition.SetPackage | src/main/java/com/shelfmap/classprocessor/impl/DefautClassDefinition.java:64-66 | the package is stored |
| ClassDefinitions.ClassDefinition.SetClassName | src/main/java/com/shelfmap/classprocessor/impl/DefautClassDefinition.java:74-76 | the class name is stored |
| ClassDefinitions.ClassDefinition.GetFields | src/main/java/com/shelfmap/classprocessor/impl/DefautClassDefinition.java:79-81 | a fresh array holding the fields in order |
| ClassDefinitions.ClassDefinition.AddFields | src/main/java/com/shelfmap/classprocessor/impl/DefautClassDefinition.java:84-96 | null changes nothing; otherwise the fields are appended in order, each paired with the first property sharing its key, with no other change |
| ClassDefinitions.ClassDefinition.PairField | src/main/java/com/shelfmap/classprocessor/impl/DefautClassDefinition.java:88-95 | one field is appended and paired with the first property sharing its key, if there is one |
| ClassDefinitions.ClassDefinition.FindField | src/main/java/com/shelfmap/classprocessor/impl/DefautClassDefinition.java:99-106 | the first field with that name and type, or null |
| ClassDefinitions.ClassDefinition.GetProperties | src/main/java/com/shelfmap/classprocessor/impl/DefautClassDefinition.java:109-111 | a fresh array holding the properties in order |
| ClassDefinitions.ClassDefinition.AddProperties | src/main/java/com/shelfmap/classprocessor/impl/DefautClassDefinition.java:114-125 | null changes nothing; otherwise the properties are appended in order, each paired with the first field sharing its key, with no other change |
| ClassDefinitions.ClassDefinition.PairProperty | src/main/java/com/shelfmap/classprocessor/impl/DefautClassDefinition.java:118-124 | one property is appended and paired with the first field sharing its key, if there is one |
| ClassDefinitions.ClassDefinition.FindProperty | src/main/java/com/shelfmap/classprocessor/impl/DefautClassDefinition.java:128-135 | the first property with that name and type, or null |
| ClassDefinitions.ClassDefinition.GetInnerFields | src/main/java/com/shelfmap/classprocessor/impl/DefautClassDefinition.java:138-147 | the fields without a property of the same key, in order |
| ClassDefinitions.ClassDefinition.GetMethods | src/main/java/com/shelfmap/classprocessor/impl/DefautClassDefinition.java:150-152 | a fresh array holding the methods in order |
| ClassDefinitions.ClassDefinition.AddMethods | src/main/java/com/shelfmap/classprocessor/impl/DefautClassDefinition.java:155-158 | null changes nothing; otherwise the methods are appended in order |
| ClassDefinitions.ClassDefinition.GetTypeParameterElements | src/main/java/com/shelfmap/classprocessor/impl/DefautClassDefinition.java:161-163 | a fresh array holding the type parameters in order |
| ClassDefinitions.ClassDefinition.AddTypeParameters | src/main/java/com/shelfmap/classprocessor/impl/DefautClassDefinition.java:166-169 | null changes nothing; otherwise the type parameters are appended in order |
| ClassDefinitions.ClassDefinition.IsHavingIgnoredProperty | src/main/java/com/shelfmap/classprocessor/impl/DefautClassDefinition.java:171-176 | true exactly when some property is ignored |
| ClassDefinitions.AddedOneField | src/main/java/com/shelfmap/classprocessor/impl/DefautClassDefinition.java:84-96 | adding one field to the objects gives the snapshot AddFieldToState describes |
| ClassDefinitions.AddedOneProperty | src/main/java/com/shelfmap/classprocessor/impl/DefautClassDefinition.java:114-125 | adding one property to the objects gives the snapshot AddPropertyToState describes |
| PropertyVisitor.LastDot | src/main/java/com/shelfmap/classprocessor/PropertyVisitor.java:95 | the position of the last '.', or -1 when there is none |
| PropertyVisitor.SplitPackageName | src/main/java/com/shelfmap/classprocessor/PropertyVisitor.java:92-98 | null for a null or empty name; ("", name) without a dot; otherwise package + "." + simple name is the name, and the simple name has no dot |
| PropertyVisitor.BuildPropertyView | src/main/java/com/shelfmap/classprocessor/PropertyVisitor.java:206-276 | get* gives a readable property, set* with one parameter a writable one, is* only for boolean/Boolean results, anything else nothing; defined is level == 0; @Property copies retainType, realType and ignore |
| PropertyVisitor.BuildFieldView | src/main/java/com/shelfmap/classprocessor/PropertyVisitor.java:156-204 | only FIELD variables become fields; @Field copies its five keys; without it the defaults stay |
| PropertyVisitor.DefaultFieldAnnotationSetsVoidRealType | src/main/java/com/shelfmap/classprocessor/PropertyVisitor.java:168-201 | an @Field at its defaults leaves the defaults except realType, which becomes Void |
| PropertyVisitor.MergeView | src/main/java/com/shelfmap/classprocessor/PropertyVisitor.java:146-154 | the candidate's reader and writer are copied only when it has them; every other attribute of the earlier property is kept |
| PropertyVisitor.MergeKeepsAccessors | src/main/java/com/shelfmap/classprocessor/PropertyVisitor.java:146-154 | the merged property is readable (writable) exactly when either side was |
| PropertyVisitor.ExtendsTransitive | src/main/java/com/shelfmap/classprocessor/PropertyVisitor.java:56-90 | growing the definition twice is growing it |
| PropertyVisitor.VisitExecutableExtends | src/main/java/com/shelfmap/classprocessor/PropertyVisitor.java:115-144 | visiting a method only appends entries and only adds accessors and pairings to existing ones |
| PropertyVisitor.VisitVariableExtends | src/main/java/com/shelfmap/classprocessor/PropertyVisitor.java:101-112 | visiting a variable only appends a field and only adds pairings |
| PropertyVisitor.HeaderExtends | src/main/java/com/shelfmap/classprocessor/PropertyVisitor.java:60-87 | the super-interface walk and the naming only grow the definition |
| PropertyVisitor.VisitTypeExtends | src/main/java/com/shelfmap/classprocessor/PropertyVisitor.java:56-90 | a whole walk only grows the definition: lists grow at their ends and no accessor or pairing is lost |
| PropertyVisitor.SupersExtends | src/main/java/com/shelfmap/classprocessor/PropertyVisitor.java:70-77 | the super-interface loop only grows the definition |
| PropertyVisitor.MembersExtends | src/main/java/com/shelfmap/classprocessor/PropertyVisitor.java:89 | the scan of the enclosed elements only grows the definition |
| PropertyVisitor.DeepVisitKeepsNames | src/main/java/com/shelfmap/classprocessor/PropertyVisitor.java:79-87 | at a level above 0 (deeper than the root) a walk never fails and never sets the package, class name or type parameters |
| PropertyVisitor.DeepSupersKeepNames | src/main/java/com/shelfmap/classprocessor/PropertyVisitor.java:70-77 | for an owner at level 0 or deeper, its super-interfaces are walked one level deeper, at a level above 0 (deeper than the root), so that walk never fails and never changes the naming |
| PropertyVisitor.DeepMembersKeepNames | src/main/java/com/shelfmap/classprocessor/PropertyVisitor.java:89 | a scan at a level above 0 (deeper than the root) never fails and never changes the naming |
| PropertyVisitor.EmptyRootNameFails | src/main/java/com/shelfmap/classprocessor/PropertyVisitor.java:79-84 | an empty qualified name at level 0 throws |
| PropertyVisitor.RejectedSupersContributeNothing | src/main/java/com/shelfmap/classprocessor/PropertyVisitor.java:70-77 | super-interfaces the filter rejects leave the definition unchanged |
| PropertyVisitor.NewPropertiesDefinedTransitive | src/main/java/com/shelfmap/classprocessor/PropertyVisitor.java:216 | the defined flag of new properties is preserved across two growth steps |
| PropertyVisitor.RejectAllDefinesByStartLevel | src/main/java/com/shelfmap/classprocessor/PropertyVisitor.java:70-77 | with a reject-all filter every new property is found at the start level, so from the root every new property is defined |
| PropertyVisitor.RejectAllMembersDefine | src/main/java/com/shelfmap/classprocessor/PropertyVisitor.java:89 | the same for a scan of enclosed elements |
| PropertyVisitor.RejectAllMemberDefines | src/main/java/com/shelfmap/classprocessor/PropertyVisitor.java:89 | the same for one enclosed element |
| PropertyVisitor.MembersWithoutTypes | src/main/java/com/shelfmap/classprocessor/PropertyVisitor.java:139-142 | a scan without member types never fails, appends exactly the plain methods in order and keeps the naming |
| PropertyVisitor.RootNamingAndOrder | src/main/java/com/shelfmap/classprocessor/PropertyVisitor.java:56-90 | the root is named after its split qualified name; the walk over its super-interfaces (with the element type set) succeeds, and the root's methods are exactly that walk's methods followed by the root's own plain methods, in declaration order |
| PropertyVisitor.MembersFailurePersists | src/main/java/com/shelfmap/classprocessor/PropertyVisitor.java:89 | once a scan has thrown, the rest of the scan throws the same |
| PropertyVisitor.SupersFailurePersists | src/main/java/com/shelfmap/classprocessor/PropertyVisitor.java:70-77 | once a super-interface walk has thrown, the loop throws the same |
| PropertyVisitor.Environment.constructor | src/main/java/com/shelfmap/classprocessor/impl/BuildingEnvironment.java:33 | the level starts at 0 |
| PropertyVisitor.Environment.SetLevel | src/main/java/com/shelfmap/classprocessor/impl/BuildingEnvironment.java:54-56 | only the level changes |
| PropertyVisitor.PropertyVisitor.constructor | src/main/java/com/shelfmap/classprocessor/PropertyVisitor.java:43-50 | the visitor keeps the super-interface filter |
| PropertyVisitor.PropertyVisitor.BuildProperty | src/main/java/com/shelfmap/classprocessor/PropertyVisitor.java:206-276 | null exactly when BuildPropertyView gives nothing; otherwise a fresh property whose state is that snapshot |
| PropertyVisitor.PropertyVisitor.BuildField | src/main/java/com/shelfmap/classprocessor/PropertyVisitor.java:156-204 | null exactly when BuildFieldView gives nothing; otherwise a fresh field whose state is that snapshot |
| PropertyVisitor.PropertyVisitor.MergeProperty | src/main/java/com/shelfmap/classprocessor/PropertyVisitor.java:146-154 | the earlier property's state becomes MergeView of the two |
| PropertyVisitor.PropertyVisitor.VisitVariable | src/main/java/com/shelfmap/classprocessor/PropertyVisitor.java:101-112 | the definition's state becomes VisitVariableSpec of the old state |
| PropertyVisitor.PropertyVisitor.VisitExecutable | src/main/java/com/shelfmap/classprocessor/PropertyVisitor.java:115-144 | the definition's state becomes VisitExecutableSpec of the old state and level |
| PropertyVisitor.PropertyVisitor.AddNewProperty | src/main/java/com/shelfmap/classprocessor/PropertyVisitor.java:140 | the property is added with pairing, as AddPropertyToState says |
| PropertyVisitor.PropertyVisitor.MergeIntoPrevious | src/main/java/com/shelfmap/classprocessor/PropertyVisitor.java:129-138 | only the first property with the key changes, into MergeView of it and the candidate |
| PropertyVisitor.PropertyVisitor.RecordProperty | src/main/java/com/shelfmap/classprocessor/PropertyVisitor.java:128-141 | the state becomes RecordPropertySpec: merged into the first match, or appended |
| PropertyVisitor.PropertyVisitor.AddPlainMethod | src/main/java/com/shelfmap/classprocessor/PropertyVisitor.java:142 | only the method list changes, by appending the method |
| PropertyVisitor.PropertyVisitor.AddNewField | src/main/java/com/shelfmap/classprocessor/PropertyVisitor.java:109 | the field is added with pairing, as AddFieldToState says |
| PropertyVisitor.PropertyVisitor.VisitType | src/main/java/com/shelfmap/classprocessor/PropertyVisitor.java:56-90 | the outcome and new state are VisitTypeSpec of the old state and level, and the level is restored |
| PropertyVisitor.PropertyVisitor.VisitHeader | src/main/java/com/shelfmap/classprocessor/PropertyVisitor.java:60-87 | the outcome and new state are HeaderSpec of the old state and level |
| PropertyVisitor.PropertyVisitor.VisitSupers | src/main/java/com/shelfmap/classprocessor/PropertyVisitor.java:70-77 | the outcome and new state are SupersSpec; the level is raised around each super-interface and restored |
| PropertyVisitor.PropertyVisitor.VisitSuper | src/main/java/com/shelfmap/classprocessor/PropertyVisitor.java:71-76 | the outcome and new state are SuperSpec: walked one level deeper when accepted, skipped otherwise |
| PropertyVisitor.PropertyVisitor.NameDefinition | src/main/java/com/shelfmap/classprocessor/PropertyVisitor.java:79-87 | throws exactly for an empty name, changing nothing; otherwise sets package, class name and appends the type parameters |
| PropertyVisitor.PropertyVisitor.VisitMembers | src/main/java/com/shelfmap/classprocessor/PropertyVisitor.java:89 | the outcome and new state are MembersSpec of the old state |
| PropertyVisitor.PropertyVisitor.VisitMember | src/main/java/com/shelfmap/classprocessor/PropertyVisitor.java:89 | the outcome and new state are MemberSpec of the old state |
| ProcessorText.SafeNameIsNotReserved | src/main/java/com/shelfmap/interfaceprocessor/InterfaceProcessor.java:772-774 | the escaped name is never reserved; it is "_"+w exactly when w is reserved and w exactly when it is not |
| ProcessorText.SafeNameCollision | src/main/java/com/shelfmap/interfaceprocessor/InterfaceProcessor.java:772-774 | a reserved word w and the name "_"+w escape to the same safe name |
| ProcessorText.Retain | src/main/java/com/shelfmap/interfaceprocessor/InterfaceProcessor.java:758-770 | a primitive property is retained as its (escaped) name |
| ProcessorText.Indent | src/main/java/com/shelfmap/interfaceprocessor/InterfaceProcessor.java:802-809 | 4n spaces, and nothing for n <= 0 |
| ProcessorText.DecimalText | src/main/java/com/shelfmap/interfaceprocessor/InterfaceProcessor.java:292-296 | the serial version is written as a non-empty decimal |
| ProcessorText.Digits | src/main/java/com/shelfmap/interfaceprocessor/InterfaceProcessor.java:295 | a non-empty run of decimal digits |
| ProcessorText.DigitChar | src/main/java/com/shelfmap/interfaceprocessor/InterfaceProcessor.java:295 | the digit character whose value is d |
| ProcessorText.DecimalRoundTrip | src/main/java/com/shelfmap/interfaceprocessor/InterfaceProcessor.java:292-296 | the written serial version reads back as the same number |
| ProcessorText.ParseDigitsOfDigits | src/main/java/com/shelfmap/interfaceprocessor/InterfaceProcessor.java:295 | the digits of a natural number read back as that number |
| ProcessorText.NonIgnored | src/main/java/com/shelfmap/interfaceprocessor/InterfaceProcessor.java:302-306 | the properties the generator writes are at most the given ones |
| ProcessorText.NonIgnoredMembers | src/main/java/com/shelfmap/interfaceprocessor/InterfaceProcessor.java:302-306 | a property is written exactly when it is given and not ignored |
| ProcessorText.ReadOnly | src/main/java/com/shelfmap/interfaceprocessor/InterfaceProcessor.java:428-440 | the read-only constructor takes at most the given properties |
| ProcessorText.ReadOnlyMembers | src/main/java/com/shelfmap/interfaceprocessor/InterfaceProcessor.java:428-440 | a property is a read-only parameter exactly when it is readable and not writable |
| ProcessorText.NumReadable | src/main/java/com/shelfmap/interfaceprocessor/InterfaceProcessor.java:350-359 | the readable count never exceeds the property count |
| ProcessorText.NumWritable | src/main/java/com/shelfmap/interfaceprocessor/InterfaceProcessor.java:350-359 | the writable count never exceeds the property count |
| ProcessorText.ConcreteHeaderIff | src/main/java/com/shelfmap/interfaceprocessor/InterfaceProcessor.java:260-276 | the header says "public abstract class" exactly when isAbstract is false, and "public class" exactly when it is true |
| ProcessorText.ClassNameAgreesWithHeader | src/main/java/com/shelfmap/interfaceprocessor/InterfaceProcessor.java:827-844 | an explicit class name always wins; otherwise the name uses the abstract or concrete hooks as isAbstract chooses |
| ProcessorText.DerivedPackageIsSubPackage | src/main/java/com/shelfmap/interfaceprocessor/InterfaceProcessor.java:811-825 | an absolute package name is used as is; otherwise the package is the interface's package + ".impl" or + "." + the relative name |
| ProcessorText.FieldLines | src/main/java/com/shelfmap/interfaceprocessor/InterfaceProcessor.java:302-306 | one declaration line per written property, in order |
| ProcessorText.FieldDeclarationSpacing | src/main/java/com/shelfmap/interfaceprocessor/InterfaceProcessor.java:133-137 | the space after the modifier is written only when the modifier's keyword is not empty |
| ProcessorText.Parameters | src/main/java/com/shelfmap/interfaceprocessor/InterfaceProcessor.java:384-395 | one "type name" parameter per property, in order |
| ProcessorText.ParameterTextIsJoin | src/main/java/com/shelfmap/interfaceprocessor/InterfaceProcessor.java:384-395 | the isFirst loop writes the parameters joined by ", " with no leading separator |
| ProcessorText.Initializers | src/main/java/com/shelfmap/interfaceprocessor/InterfaceProcessor.java:375-378 | one initializer line per property, storing its retained value |
| ProcessorText.SecondConstructorIff | src/main/java/com/shelfmap/interfaceprocessor/InterfaceProcessor.java:347-367 | the read-only constructor is written exactly when its parameter list differs from the full one, and then it is strictly shorter |
| ProcessorText.ReadOnlyPrefix | src/main/java/com/shelfmap/interfaceprocessor/InterfaceProcessor.java:350-364 | the read-only list equals the full list exactly when every property is readable and none writable |
| ProcessorText.ReadOnlyLength | src/main/java/com/shelfmap/interfaceprocessor/InterfaceProcessor.java:428-440 | a read-only list as long as its input is its input |
| ProcessorText.AccessorNamesRoundTrip | src/main/java/com/shelfmap/interfaceprocessor/InterfaceProcessor.java:139-206 | for a name that does not start with an upper-case letter, the getter and setter names ("is" for boolean/Boolean, else "get"; "set") lead back to the property's name |
| ProcessorText.UnlockBeforeFire | src/main/java/com/shelfmap/interfaceprocessor/InterfaceProcessor.java:193-203 | in a thread-safe, change-aware setter the 19 lines release the write lock at line 12 and fire the change event at line 15, and no line up to and including the release fires the event |
| ProcessorText.PlainSetterHasNoLockOrEvent | src/main/java/com/shelfmap/interfaceprocessor/InterfaceProcessor.java:166-185 | with neither change support nor thread safety a setter is five lines whose one statement stores the retained value; none of them takes the write lock, releases it or fires the change event |
| ProcessorText.AccessorsSkipIgnored | src/main/java/com/shelfmap/interfaceprocessor/InterfaceProcessor.java:332-345 | ignored properties contribute no accessor |
| ProcessorText.HashLines | src/main/java/com/shelfmap/interfaceprocessor/InterfaceProcessor.java:546-550 | one hash line per written property |
| ProcessorText.HashLinesLayout | src/main/java/com/shelfmap/interfaceprocessor/InterfaceProcessor.java:546-592 | line k adds 31 * result + the type-specific hash of the k-th written property |
| ProcessorText.EqualLines | src/main/java/com/shelfmap/interfaceprocessor/InterfaceProcessor.java:485-489 | three lines per written property |
| ProcessorText.EqualLinesLayout | src/main/java/com/shelfmap/interfaceprocessor/InterfaceProcessor.java:508-533 | test k compares the k-th written property with its type-specific inequality |
| ProcessorText.MemberLines | src/main/java/com/shelfmap/interfaceprocessor/InterfaceProcessor.java:607-617 | one toString line per written property |
| ProcessorText.MemberLinesLayout | src/main/java/com/shelfmap/interfaceprocessor/InterfaceProcessor.java:607-617 | only the first member line lacks the ", " separator |
| ProcessorText.ToStringLayout | src/main/java/com/shelfmap/interfaceprocessor/InterfaceProcessor.java:597-624 | in the whole toString method: the line before the members returns the class name and "{"; right after the members comes "superClass=", preceded by ", " exactly when at least one member is written, and then '}' |
| ProcessorText.RenderAppend | src/main/java/com/shelfmap/interfaceprocessor/InterfaceProcessor.java:92-114 | writing two runs of lines one after the other writes their text one after the other |
| ProcessorText.RenderedFile | src/main/java/com/shelfmap/interfaceprocessor/InterfaceProcessor.java:92-114 | the file starts with the header and ends with "}" |
| ProcessorText.ProcessLayout | src/main/java/com/shelfmap/interfaceprocessor/InterfaceProcessor.java:54-125 | nothing is written exactly when autoGenerate is off; otherwise the file is named by the resolved package and class name, starts with the header and ends with "}" |
| ProcessorText.ProcessSectionOrder | src/main/java/com/shelfmap/interfaceprocessor/InterfaceProcessor.java:96-114 | the file is exactly the header, the fields, constructors and accessors, then hashCode, equals and toString, then clone and the listener methods, then "}" |
| InterfaceProcessor.IndentText | src/main/java/com/shelfmap/interfaceprocessor/InterfaceProcessor.java:802-809 | the loop builds Indent(n) |
| InterfaceProcessor.GenerateReadLock | src/main/java/com/shelfmap/interfaceprocessor/InterfaceProcessor.java:541-544 | the read-lock lines when thread-safe, and one level deeper |
| InterfaceProcessor.GenerateReadUnlock | src/main/java/com/shelfmap/interfaceprocessor/InterfaceProcessor.java:556-560 | the unlock lines when thread-safe, and one level back |
| InterfaceProcessor.GenerateReturnFalseIf | src/main/java/com/shelfmap/interfaceprocessor/InterfaceProcessor.java:508-533 | an if-test that returns false, at an unchanged level |
| InterfaceProcessor.GenerateClassDefinition | src/main/java/com/shelfmap/interfaceprocessor/InterfaceProcessor.java:268-297 | appends the header lines |
| InterfaceProcessor.GenerateField | src/main/java/com/shelfmap/interfaceprocessor/InterfaceProcessor.java:133-137 | appends one field declaration at an unchanged level |
| InterfaceProcessor.GenerateFieldDeclarations | src/main/java/com/shelfmap/interfaceprocessor/InterfaceProcessor.java:302-306 | appends one declaration per written property |
| InterfaceProcessor.GenerateFields | src/main/java/com/shelfmap/interfaceprocessor/InterfaceProcessor.java:299-321 | appends the field section |
| InterfaceProcessor.FullArgParameters | src/main/java/com/shelfmap/interfaceprocessor/InterfaceProcessor.java:383-396 | the parameter text of every written property |
| InterfaceProcessor.ReadOnlyParameters | src/main/java/com/shelfmap/interfaceprocessor/InterfaceProcessor.java:426-440 | the parameter text of the read-only written properties |
| InterfaceProcessor.GeneratePropertyFieldInitializer | src/main/java/com/shelfmap/interfaceprocessor/InterfaceProcessor.java:375-378 | appends one initializer |
| InterfaceProcessor.GenerateInitializers | src/main/java/com/shelfmap/interfaceprocessor/InterfaceProcessor.java:398-402 | appends one initializer per parameter, in order |
| InterfaceProcessor.GenerateConstructor | src/main/java/com/shelfmap/interfaceprocessor/InterfaceProcessor.java:380-410 | appends a constructor with the given parameters and initializers |
| InterfaceProcessor.GenerateFullArgConstructor | src/main/java/com/shelfmap/interfaceprocessor/InterfaceProcessor.java:380-410 | appends the constructor over every written property |
| InterfaceProcessor.GenerateReadOnlyFieldConstructor | src/main/java/com/shelfmap/interfaceprocessor/InterfaceProcessor.java:423-458 | appends the constructor over the read-only written properties |
| InterfaceProcessor.CountProperties | src/main/java/com/shelfmap/interfaceprocessor/InterfaceProcessor.java:350-359 | the counts of written, readable and writable properties |
| InterfaceProcessor.GenerateConstructors | src/main/java/com/shelfmap/interfaceprocessor/InterfaceProcessor.java:347-367 | appends the full constructor and, when the counts say so, the read-only one |
| InterfaceProcessor.GenerateGetter | src/main/java/com/shelfmap/interfaceprocessor/InterfaceProcessor.java:139-158 | appends the getter, at an unchanged level |
| InterfaceProcessor.GenerateSetter | src/main/java/com/shelfmap/interfaceprocessor/InterfaceProcessor.java:160-206 | appends the setter, at an unchanged level |
| InterfaceProcessor.GenerateSetterHead | src/main/java/com/shelfmap/interfaceprocessor/InterfaceProcessor.java:166-178 | appends the signature and lock, and enters the body level |
| InterfaceProcessor.GenerateSetterStore | src/main/java/com/shelfmap/interfaceprocessor/InterfaceProcessor.java:179-192 | appends the old-value capture and the store |
| InterfaceProcessor.GenerateSetterTail | src/main/java/com/shelfmap/interfaceprocessor/InterfaceProcessor.java:193-206 | appends the unlock and the event, and returns to the outer level |
| InterfaceProcessor.GeneratePropertyAccessor | src/main/java/com/shelfmap/interfaceprocessor/InterfaceProcessor.java:334-342 | appends the getter when readable and the setter when writable |
| InterfaceProcessor.GeneratePropertyAccessors | src/main/java/com/shelfmap/interfaceprocessor/InterfaceProcessor.java:332-345 | appends the accessors of every written property |
| InterfaceProcessor.GenerateHashCodeForOneProperty | src/main/java/com/shelfmap/interfaceprocessor/InterfaceProcessor.java:568-592 | appends one hash line |
| InterfaceProcessor.GenerateHashLines | src/main/java/com/shelfmap/interfaceprocessor/InterfaceProcessor.java:546-550 | appends one hash line per written property |
| InterfaceProcessor.GenerateHashCodeHead | src/main/java/com/shelfmap/interfaceprocessor/InterfaceProcessor.java:537-544 | appends the signature, the lock and the seed 17 |
| InterfaceProcessor.GenerateHashCodeTail | src/main/java/com/shelfmap/interfaceprocessor/InterfaceProcessor.java:556-565 | appends the return and the unlock, and returns to the outer level |
| InterfaceProcessor.GenerateHashCode | src/main/java/com/shelfmap/interfaceprocessor/InterfaceProcessor.java:535-566 | appends the hashCode section, with the superclass contribution last |
| InterfaceProcessor.GenerateEqualForOneProperty | src/main/java/com/shelfmap/interfaceprocessor/InterfaceProcessor.java:508-533 | appends one property test |
| InterfaceProcessor.GenerateEqualLines | src/main/java/com/shelfmap/interfaceprocessor/InterfaceProcessor.java:485-489 | appends one test per written property |
| InterfaceProcessor.GenerateEqualsHead | src/main/java/com/shelfmap/interfaceprocessor/InterfaceProcessor.java:470-483 | appends the signature, the class checks and the lock |
| InterfaceProcessor.GenerateEqualsTail | src/main/java/com/shelfmap/interfaceprocessor/InterfaceProcessor.java:497-505 | appends the return and the unlock, and returns to the outer level |
| InterfaceProcessor.GenerateEquals | src/main/java/com/shelfmap/interfaceprocessor/InterfaceProcessor.java:467-506 | appends the equals section, with the superclass check last |
| InterfaceProcessor.GenerateMemberLines | src/main/java/com/shelfmap/interfaceprocessor/InterfaceProcessor.java:607-617 | appends the member lines; isFirst stays true exactly when no property was written |
| InterfaceProcessor.GenerateToStringHead | src/main/java/com/shelfmap/interfaceprocessor/InterfaceProcessor.java:597-605 | appends the signature, the lock and "ClassName{" |
| InterfaceProcessor.GenerateToStringClose | src/main/java/com/shelfmap/interfaceprocessor/InterfaceProcessor.java:618-625 | appends the superclass entry and the closing brace |
| InterfaceProcessor.GenerateToStringTail | src/main/java/com/shelfmap/interfaceprocessor/InterfaceProcessor.java:627-633 | appends the return and the unlock, and returns to the outer level |
| InterfaceProcessor.GenerateToString | src/main/java/com/shelfmap/interfaceprocessor/InterfaceProcessor.java:594-636 | appends the toString section |
| InterfaceProcessor.GenerateClone | src/main/java/com/shelfmap/interfaceprocessor/InterfaceProcessor.java:638-648 | appends the fixed clone method |
| InterfaceProcessor.GenerateForEachListener | src/main/java/com/shelfmap/interfaceprocessor/InterfaceProcessor.java:651-657 | appends a loop over the listeners |
| InterfaceProcessor.GenerateAddListenersMethod | src/main/java/com/shelfmap/interfaceprocessor/InterfaceProcessor.java:651-657 | appends addPropertyChangeListener |
| InterfaceProcessor.GenerateAddNamedListenersMethod | src/main/java/com/shelfmap/interfaceprocessor/InterfaceProcessor.java:659-666 | appends the named addPropertyChangeListener |
| InterfaceProcessor.GenerateGetListenersMethod | src/main/java/com/shelfmap/interfaceprocessor/InterfaceProcessor.java:668-671 | appends getPropertyChangeListeners |
| InterfaceProcessor.GenerateGetNamedListenersMethod | src/main/java/com/shelfmap/interfaceprocessor/InterfaceProcessor.java:673-677 | appends the named getPropertyChangeListeners |
| InterfaceProcessor.GenerateHasListenersMethod | src/main/java/com/shelfmap/interfaceprocessor/InterfaceProcessor.java:679-683 | appends hasListeners |
| InterfaceProcessor.GenerateRemoveListenersMethod | src/main/java/com/shelfmap/interfaceprocessor/InterfaceProcessor.java:685-691 | appends removePropertyChangeListener |
| InterfaceProcessor.GenerateRemoveNamedListenersMethod | src/main/java/com/shelfmap/interfaceprocessor/InterfaceProcessor.java:693-700 | appends the named removePropertyChangeListener |
| InterfaceProcessor.GeneratePropertyListenerAccessors | src/main/java/com/shelfmap/interfaceprocessor/InterfaceProcessor.java:650-703 | appends the seven listener methods in order |
| InterfaceProcessor.GenerateStateSections | src/main/java/com/shelfmap/interfaceprocessor/InterfaceProcessor.java:97-99 | appends fields, constructors and accessors, in that order |
| InterfaceProcessor.GenerateObjectSections | src/main/java/com/shelfmap/interfaceprocessor/InterfaceProcessor.java:100-102 | appends hashCode, equals and toString, in that order |
| InterfaceProcessor.GenerateOptionalSections | src/main/java/com/shelfmap/interfaceprocessor/InterfaceProcessor.java:104-110 | appends clone when cloneable and the listener methods when change-aware |
| InterfaceProcessor.GenerateBody | src/main/java/com/shelfmap/interfaceprocessor/InterfaceProcessor.java:92-114 | appends every section in the fixed order, at level 1 |
| InterfaceProcessor.GenerateSource | src/main/java/com/shelfmap/interfaceprocessor/InterfaceProcessor.java:92-114 | the header followed by the body |
| InterfaceProcessor.Process | src/main/java/com/shelfmap/interfaceprocessor/InterfaceProcessor.java:54-125 | the file ProcessSpec describes: none when autoGenerate is off, otherwise the resolved package and class name and the rendered source |

## Left out

- Writing through the Filer: the `JavaFileObject`, Writer open/flush/close, logging and the `processed` bookkeeping of `process` are I/O. The Writer is a sequence of lines passed in and returned, and the final "}" is written without a line break.
- The generation timestamp in the header comes from the clock. It is a parameter of the generator.
- InterfaceProcessor.Process: receives the definition the interface processor's visitor collected, as a value. The element loop, the kind check, `findAnnotation`, `precheck` (always true) and `generateOthers` (writes nothing) are not modelled. The interface processor's own `PropertyVisitor`, `RetainType` and its `util` package are not part of this model.
- `generateDefaultConstructor` is never called by the generator and is left out.
- ProcessorText.Retain: `RetainType.codeFor` is a function parameter, so only "a primitive is retained as its name" is stated. A retain-type name that `valueOf` rejects is not modelled.
- Strings.ToUpper: `Character.toUpperCase` is modelled on ASCII letters only.
- Strings.ToLower: `Character.toLowerCase` is modelled on ASCII letters only.
- `isPropertyChangeEventAware` and `getSuperClassValue` query the compiler. They are fields of the `Options` record (`propertyChangeAware`, `superClass`).
- The values of `@GenerateClass`, `@Property` and `@Field` come from `getElementValuesWithDefaults`. They are records that hold every key.
- `Types.isSameType` is equality on the type datatype.
- ClassProperties.Property.Equals: the `getClass()` comparison is left out, because the model has one property class.
- `hashCode` and `toString` of the two `DefaultProperty` classes and of `DefaultField` produce no value the processor uses.
- The reflection helpers of `Objects` (`linearize`, `findAnnotation`, `findAnnotationOnProperty`, `primitiveToObject`) and all of `IO` are left out.
- `RemovePrefixInterfaceProcessor` overrides a method its base class does not have, so it is left out.
- The debug `System.out.println` in `DefautClassDefinition.addFields` is output only, and is left out.
- A `null` element inside the `fields` or `props` array of `addFields` and `addProperties` (`src/main/java/com/shelfmap/classprocessor/impl/DefautClassDefinition.java:89`, `:119`) would throw. The model's arrays are `Option<seq<…>>` with no null elements, so this failure is not modelled.
- The `null` branches for `name` and `retainType` in the class processor's `DefaultProperty.equals` (`src/main/java/com/shelfmap/classprocessor/impl/DefaultProperty.java:175`, `:181`) are not modelled, because the model's strings cannot be null.
- ProcessorText.PlainSetterHasNoLockOrEvent: stated for indentation depths of zero or more. The generator starts at depth 1 and only nests deeper.
- The generated code is not given a meaning. Locks, `PropertyChangeSupport` and floating-point bit patterns are modelled as the text written, not as what that text does.
- The generator's `generate*` methods write `Indent(shift)` through the function. `IndentText` models the `indent` loop itself.

The model follows the generator as written in three places:

- The reference-type change test in a setter writes `oldValue != null && !oldValue.equals(newValue)`, so a change from null to a value fires no event. `ProcessorText.ChangeTest` writes exactly that text.
- Because `@Field`'s defaults are read too, an `@Field` at its defaults sets the real type to `Void` rather than leaving it null (`PropertyVisitor.DefaultFieldAnnotationSetsVoidRealType`).
- `toSafeName` is not one-to-one: an interface with properties `int` and `_int` would give the class two fields named `_int` (`ProcessorText.SafeNameCollision`).
