/**
 * The GraphQL abstract syntax tree (atgql/language/ast.py): tokens, source
 * locations, one record per node class with its fixed `kind` tag, the unions
 * that group them, `is_node`, and the `ASTKindToNode` table.
 */
module Ast {
  import opened Wrappers
  import Sources

  /** The kind of a lexical token; the token kind enumeration is not part of this model, so a kind is its name. */
  type TokenKind = string

  /**
   * A lexical token. `prev` and `next` link all tokens of a document; a token
   * is created unlinked.
   */
  datatype Token = Token(
    kind: TokenKind, start: int, end: int, line: int, column: int,
    value: Option<string>, prev: Option<Token>, next: Option<Token>)

  /** `Token(kind, start, end, line, column, value)`. */
  function NewToken(kind: TokenKind, start: int, end: int, line: int, column: int, value: Option<string>): (t: Token)
    ensures t.kind == kind && t.start == start && t.end == end
    ensures t.line == line && t.column == column && t.value == value
    ensures t.prev == None && t.next == None
  {
    Token(kind, start, end, line, column, value, None, None)
  }

  /** The JSON form of a token: its kind, value, line and column, without offsets or links. */
  datatype TokenJson = TokenJson(kind: TokenKind, value: Option<string>, line: int, column: int)

  function TokenToJson(t: Token): (j: TokenJson)
    ensures j.kind == t.kind && j.value == t.value && j.line == t.line && j.column == t.column
  {
    TokenJson(t.kind, t.value, t.line, t.column)
  }

  function TokenRepr(t: Token): string {
    "Token"
  }

  /** The stretch of source text a node came from, with the tokens that bound it. */
  datatype Location = Location(start: int, end: int, startToken: Token, endToken: Token, source: Sources.Source)

  /** `Location(start_token, end_token, source)`: the offsets come from the bounding tokens. */
  function NewLocation(startToken: Token, endToken: Token, source: Sources.Source): (l: Location)
    ensures l.start == startToken.start && l.end == endToken.end
    ensures l.startToken == startToken && l.endToken == endToken && l.source == source
  {
    Location(startToken.start, endToken.end, startToken, endToken, source)
  }

  /** The JSON form of a location: its two offsets only. */
  datatype LocationJson = LocationJson(start: int, end: int)

  function LocationToJson(l: Location): (j: LocationJson)
    ensures j.start == l.start && j.end == l.end
  {
    LocationJson(l.start, l.end)
  }

  function LocationRepr(l: Location): string {
    "Location"
  }

  /** The JSON of a new location spans from the start of its first token to the end of its last. */
  lemma NewLocationJson(startToken: Token, endToken: Token, source: Sources.Source)
    ensures LocationToJson(NewLocation(startToken, endToken, source)) == LocationJson(startToken.start, endToken.end)
  {
  }

  /** The JSON of a fresh token is unaffected by its offsets. */
  lemma NewTokenJson(kind: TokenKind, start: int, end: int, start': int, end': int, line: int, column: int, value: Option<string>)
    ensures TokenToJson(NewToken(kind, start, end, line, column, value))
         == TokenToJson(NewToken(kind, start', end', line, column, value))
  {
  }

  /** `OperationTypeNode`: 'query', 'mutation' or 'subscription'. */
  datatype OperationType = Query | Mutation | Subscription

  function OperationName(op: OperationType): string {
    match op
    case Query => "query"
    case Mutation => "mutation"
    case Subscription => "subscription"
  }

  // Node records. Each class fixes its `kind` tag (`Kind`); the tag is not a
  // constructor argument, so no node can be built with another tag.

  datatype NameNode = NameNode(loc: Option<Location>, value: string) {
    static const Kind: string := "Name"
    const kind: string := Kind
  }

  datatype DocumentNode = DocumentNode(loc: Option<Location>, definitions: seq<DefinitionNode>) {
    static const Kind: string := "Document"
    const kind: string := Kind
  }

  datatype OperationDefinitionNode = OperationDefinitionNode(loc: Option<Location>, operation: OperationType, name: Option<NameNode>, variableDefinitions: Option<seq<VariableDefinitionNode>>, directives: Option<seq<DirectiveNode>>, selectionSet: SelectionSetNode) {
    static const Kind: string := "OperationDefinition"
    const kind: string := Kind
  }

  datatype VariableDefinitionNode = VariableDefinitionNode(loc: Option<Location>, variable: VariableNode, typeNode: TypeNode, defaultValue: Option<ConstValueNode>, directives: Option<seq<ConstDirectiveNode>>) {
    static const Kind: string := "VariableDefinition"
    const kind: string := Kind
  }

  datatype VariableNode = VariableNode(loc: Option<Location>, name: NameNode) {
    static const Kind: string := "Variable"
    const kind: string := Kind
  }

  datatype SelectionSetNode = SelectionSetNode(loc: Option<Location>, selections: seq<SelectionNode>) {
    static const Kind: string := "SelectionSet"
    const kind: string := Kind
  }

  datatype FieldNode = FieldNode(loc: Option<Location>, alias: Option<NameNode>, name: NameNode, arguments: Option<seq<ArgumentNode>>, directives: Option<seq<DirectiveNode>>, selectionSet: Option<SelectionSetNode>) {
    static const Kind: string := "Field"
    const kind: string := Kind
  }

  datatype ArgumentNode = ArgumentNode(loc: Option<Location>, name: NameNode, value: ValueNode) {
    static const Kind: string := "Argument"
    const kind: string := Kind
  }

  datatype ConstArgumentNode = ConstArgumentNode(loc: Option<Location>, name: NameNode, value: ConstValueNode) {
    static const Kind: string := "Argument"
    const kind: string := Kind
  }

  datatype FragmentSpreadNode = FragmentSpreadNode(loc: Option<Location>, name: NameNode, directives: Option<seq<DirectiveNode>>) {
    static const Kind: string := "FragmentSpread"
    const kind: string := Kind
  }

  datatype InlineFragmentNode = InlineFragmentNode(loc: Option<Location>, typeCondition: Option<NamedTypeNode>, directives: Option<seq<DirectiveNode>>, selectionSet: SelectionSetNode) {
    static const Kind: string := "InlineFragment"
    const kind: string := Kind
  }

  datatype FragmentDefinitionNode = FragmentDefinitionNode(loc: Option<Location>, name: NameNode, variableDefinitions: Option<seq<VariableDefinitionNode>>, typeCondition: NamedTypeNode, directives: Option<seq<DirectiveNode>>, selectionSet: SelectionSetNode) {
    static const Kind: string := "FragmentDefinition"
    const kind: string := Kind
  }

  datatype IntValueNode = IntValueNode(loc: Option<Location>, value: string) {
    static const Kind: string := "IntValue"
    const kind: string := Kind
  }

  datatype FloatValueNode = FloatValueNode(loc: Option<Location>, value: string) {
    static const Kind: string := "FloatValue"
    const kind: string := Kind
  }

  datatype StringValueNode = StringValueNode(loc: Option<Location>, value: string, block: Option<bool>) {
    static const Kind: string := "StringValue"
    const kind: string := Kind
  }

  datatype BooleanValueNode = BooleanValueNode(loc: Option<Location>, value: bool) {
    static const Kind: string := "BoolValue"
    const kind: string := Kind
  }

  datatype NullValueNode = NullValueNode(loc: Option<Location>) {
    static const Kind: string := "NullValue"
    const kind: string := Kind
  }

  datatype EnumValueNode = EnumValueNode(loc: Option<Location>, value: string) {
    static const Kind: string := "EnumValue"
    const kind: string := Kind
  }

  datatype ListValueNode = ListValueNode(loc: Option<Location>, values: seq<ValueNode>) {
    static const Kind: string := "ListValue"
    const kind: string := Kind
  }

  datatype ConstListValueNode = ConstListValueNode(loc: Option<Location>, values: seq<ConstValueNode>) {
    static const Kind: string := "ListValue"
    const kind: string := Kind
  }

  datatype ObjectValueNode = ObjectValueNode(loc: Option<Location>, fields: seq<ObjectFieldNode>) {
    static const Kind: string := "ObjectValue"
    const kind: string := Kind
  }

  datatype ConstObjectValueNode = ConstObjectValueNode(loc: Option<Location>, fields: seq<ConstObjectFieldNode>) {
    static const Kind: string := "ObjectValue"
    const kind: string := Kind
  }

  datatype ObjectFieldNode = ObjectFieldNode(loc: Option<Location>, name: NameNode, value: ValueNode) {
    static const Kind: string := "ObjectField"
    const kind: string := Kind
  }

  datatype ConstObjectFieldNode = ConstObjectFieldNode(loc: Option<Location>, name: NameNode, value: ConstValueNode) {
    static const Kind: string := "ObjectField"
    const kind: string := Kind
  }

  datatype DirectiveNode = DirectiveNode(loc: Option<Location>, name: NameNode, arguments: Option<seq<ArgumentNode>>) {
    static const Kind: string := "Directive"
    const kind: string := Kind
  }

  datatype ConstDirectiveNode = ConstDirectiveNode(loc: Option<Location>, name: NameNode, arguments: Option<seq<ConstArgumentNode>>) {
    static const Kind: string := "Directive"
    const kind: string := Kind
  }

  datatype NamedTypeNode = NamedTypeNode(loc: Option<Location>, name: NameNode) {
    static const Kind: string := "NamedType"
    const kind: string := Kind
  }

  datatype ListTypeNode = ListTypeNode(loc: Option<Location>, typeNode: TypeNode) {
    static const Kind: string := "ListType"
    const kind: string := Kind
  }

  datatype NonNullTypeNode = NonNullTypeNode(loc: Option<Location>, typeNode: NullableTypeNode) {
    static const Kind: string := "NonNullType"
    const kind: string := Kind
  }

  datatype SchemaDefinitionNode = SchemaDefinitionNode(loc: Option<Location>, description: Option<StringValueNode>, directives: Option<seq<ConstDirectiveNode>>, operationTypes: seq<OperationTypeDefinitionNode>) {
    static const Kind: string := "SchemaDefinition"
    const kind: string := Kind
  }

  datatype OperationTypeDefinitionNode = OperationTypeDefinitionNode(loc: Option<Location>, operation: OperationType, typeNode: NamedTypeNode) {
    static const Kind: string := "OperationTypeDefinition"
    const kind: string := Kind
  }

  datatype ScalarTypeDefinitionNode = ScalarTypeDefinitionNode(loc: Option<Location>, description: Option<StringValueNode>, name: NameNode, directives: Option<seq<ConstDirectiveNode>>) {
    static const Kind: string := "ScalarTypeDefinition"
    const kind: string := Kind
  }

  datatype ObjectTypeDefinitionNode = ObjectTypeDefinitionNode(loc: Option<Location>, description: Option<StringValueNode>, name: NameNode, interfaces: Option<seq<NamedTypeNode>>, directives: Option<seq<ConstDirectiveNode>>, fields: Option<seq<FieldDefinitionNode>>) {
    static const Kind: string := "ObjectTypeDefinition"
    const kind: string := Kind
  }

  datatype FieldDefinitionNode = FieldDefinitionNode(loc: Option<Location>, description: Option<StringValueNode>, name: NameNode, arguments: Option<seq<InputValueDefinitionNode>>, typeNode: TypeNode, directives: Option<seq<ConstDirectiveNode>>) {
    static const Kind: string := "FieldDefinition"
    const kind: string := Kind
  }

  datatype InputValueDefinitionNode = InputValueDefinitionNode(loc: Option<Location>, description: Option<StringValueNode>, name: NameNode, typeNode: TypeNode, defaultValue: Option<ConstValueNode>, directives: Option<seq<ConstDirectiveNode>>) {
    static const Kind: string := "InputValueDefinition"
    const kind: string := Kind
  }

  datatype InterfaceTypeDefinitionNode = InterfaceTypeDefinitionNode(loc: Option<Location>, description: Option<StringValueNode>, name: NameNode, interfaces: Option<seq<NamedTypeNode>>, directives: Option<seq<ConstDirectiveNode>>, fields: Option<seq<FieldDefinitionNode>>) {
    static const Kind: string := "InterfaceTypeDefinition"
    const kind: string := Kind
  }

  datatype UnionTypeDefinitionNode = UnionTypeDefinitionNode(loc: Option<Location>, description: Option<StringValueNode>, name: NameNode, directives: Option<seq<ConstDirectiveNode>>, types: Option<seq<NamedTypeNode>>) {
    static const Kind: string := "UnionTypeDefinition"
    const kind: string := Kind
  }

  datatype EnumTypeDefinitionNode = EnumTypeDefinitionNode(loc: Option<Location>, description: Option<StringValueNode>, name: NameNode, directives: Option<seq<ConstDirectiveNode>>, values: Option<seq<EnumValueDefinitionNode>>) {
    static const Kind: string := "EnumTypeDefinition"
    const kind: string := Kind
  }

  datatype EnumValueDefinitionNode = EnumValueDefinitionNode(loc: Option<Location>, description: Option<StringValueNode>, name: NameNode, directives: Option<seq<ConstDirectiveNode>>) {
    static const Kind: string := "EnumValueDefinition"
    const kind: string := Kind
  }

  datatype InputObjectTypeDefinitionNode = InputObjectTypeDefinitionNode(loc: Option<Location>, description: Option<StringValueNode>, name: NameNode, directives: Option<seq<ConstDirectiveNode>>, fields: Option<seq<InputValueDefinitionNode>>) {
    static const Kind: string := "InputObjectTypeDefinition"
    const kind: string := Kind
  }

  datatype DirectiveDefinitionNode = DirectiveDefinitionNode(loc: Option<Location>, description: Option<StringValueNode>, name: NameNode, arguments: Option<seq<InputValueDefinitionNode>>, repeatable: bool, locations: seq<NameNode>) {
    static const Kind: string := "DirectiveDefinition"
    const kind: string := Kind
  }

  datatype SchemaExtensionNode = SchemaExtensionNode(loc: Option<Location>, directives: Option<seq<ConstDirectiveNode>>, operationTypes: Option<seq<OperationTypeDefinitionNode>>) {
    static const Kind: string := "SchemaExtension"
    const kind: string := Kind
  }

  datatype ScalarTypeExtensionNode = ScalarTypeExtensionNode(loc: Option<Location>, name: NameNode, directives: Option<seq<ConstDirectiveNode>>) {
    static const Kind: string := "ScalarTypeExtension"
    const kind: string := Kind
  }

  datatype ObjectTypeExtensionNode = ObjectTypeExtensionNode(loc: Option<Location>, name: NameNode, interfaces: Option<seq<NamedTypeNode>>, directives: Option<seq<ConstDirectiveNode>>, fields: Option<seq<FieldDefinitionNode>>) {
    static const Kind: string := "ObjectTypeExtension"
    const kind: string := Kind
  }

  datatype InterfaceTypeExtensionNode = InterfaceTypeExtensionNode(loc: Option<Location>, name: NameNode, interfaces: Option<seq<NamedTypeNode>>, directives: Option<seq<ConstDirectiveNode>>, fields: Option<seq<FieldDefinitionNode>>) {
    static const Kind: string := "InterfaceTypeExtension"
    const kind: string := Kind
  }

  datatype UnionTypeExtensionNode = UnionTypeExtensionNode(loc: Option<Location>, name: NameNode, directives: Option<seq<ConstDirectiveNode>>, types: Option<seq<NamedTypeNode>>) {
    static const Kind: string := "UnionTypeExtension"
    const kind: string := Kind
  }

  datatype EnumTypeExtensionNode = EnumTypeExtensionNode(loc: Option<Location>, name: NameNode, directives: Option<seq<ConstDirectiveNode>>, values: Option<seq<EnumValueDefinitionNode>>) {
    static const Kind: string := "EnumTypeExtension"
    const kind: string := Kind
  }

  datatype InputObjectTypeExtensionNode = InputObjectTypeExtensionNode(loc: Option<Location>, name: NameNode, directives: Option<seq<ConstDirectiveNode>>, fields: Option<seq<InputValueDefinitionNode>>) {
    static const Kind: string := "InputObjectTypeExtension"
    const kind: string := Kind
  }

  // The unions of node classes.

  /** TypeNode: a named, list or non-null type reference. */
  datatype TypeNode =
      NamedTypeRef(namedTypeNode: NamedTypeNode)
    | ListTypeRef(listTypeNode: ListTypeNode)
    | NonNullTypeRef(nonNullTypeNode: NonNullTypeNode)

  /** The type wrapped by a non-null type: a named or list type. */
  datatype NullableTypeNode =
      NullableNamed(namedTypeNode: NamedTypeNode)
    | NullableList(listTypeNode: ListTypeNode)

  /** ValueNode. */
  datatype ValueNode =
      ValueVariable(variableNode: VariableNode)
    | ValueInt(intValueNode: IntValueNode)
    | ValueFloat(floatValueNode: FloatValueNode)
    | ValueString(stringValueNode: StringValueNode)
    | ValueBoolean(booleanValueNode: BooleanValueNode)
    | ValueNull(nullValueNode: NullValueNode)
    | ValueEnum(enumValueNode: EnumValueNode)
    | ValueList(listValueNode: ListValueNode)
    | ValueObject(objectValueNode: ObjectValueNode)

  /** ConstValueNode: a value without variables. */
  datatype ConstValueNode =
      ConstInt(intValueNode: IntValueNode)
    | ConstFloat(floatValueNode: FloatValueNode)
    | ConstString(stringValueNode: StringValueNode)
    | ConstBoolean(booleanValueNode: BooleanValueNode)
    | ConstNull(nullValueNode: NullValueNode)
    | ConstEnum(enumValueNode: EnumValueNode)
    | ConstList(constListValueNode: ConstListValueNode)
    | ConstObject(constObjectValueNode: ConstObjectValueNode)

  /** SelectionNode. */
  datatype SelectionNode =
      FieldSelection(fieldNode: FieldNode)
    | SpreadSelection(fragmentSpreadNode: FragmentSpreadNode)
    | InlineSelection(inlineFragmentNode: InlineFragmentNode)

  /** ExecutableDefinitionNode. */
  datatype ExecutableDefinitionNode =
      OperationDef(operationDefinitionNode: OperationDefinitionNode)
    | FragmentDef(fragmentDefinitionNode: FragmentDefinitionNode)

  /** TypeDefinitionNode. */
  datatype TypeDefinitionNode =
      ScalarTypeDef(scalarTypeDefinitionNode: ScalarTypeDefinitionNode)
    | ObjectTypeDef(objectTypeDefinitionNode: ObjectTypeDefinitionNode)
    | InterfaceTypeDef(interfaceTypeDefinitionNode: InterfaceTypeDefinitionNode)
    | UnionTypeDef(unionTypeDefinitionNode: UnionTypeDefinitionNode)
    | EnumTypeDef(enumTypeDefinitionNode: EnumTypeDefinitionNode)
    | InputObjectTypeDef(inputObjectTypeDefinitionNode: InputObjectTypeDefinitionNode)

  /** TypeSystemDefinitionNode. */
  datatype TypeSystemDefinitionNode =
      SchemaDef(schemaDefinitionNode: SchemaDefinitionNode)
    | TypeDef(typeDefinitionNode: TypeDefinitionNode)
    | DirectiveDef(directiveDefinitionNode: DirectiveDefinitionNode)

  /** TypeExtensionNode. */
  datatype TypeExtensionNode =
      ScalarTypeExt(scalarTypeExtensionNode: ScalarTypeExtensionNode)
    | ObjectTypeExt(objectTypeExtensionNode: ObjectTypeExtensionNode)
    | InterfaceTypeExt(interfaceTypeExtensionNode: InterfaceTypeExtensionNode)
    | UnionTypeExt(unionTypeExtensionNode: UnionTypeExtensionNode)
    | EnumTypeExt(enumTypeExtensionNode: EnumTypeExtensionNode)
    | InputObjectTypeExt(inputObjectTypeExtensionNode: InputObjectTypeExtensionNode)

  /** TypeSystemExtensionNode. */
  datatype TypeSystemExtensionNode =
      SchemaExt(schemaExtensionNode: SchemaExtensionNode)
    | TypeExt(typeExtensionNode: TypeExtensionNode)

  /** DefinitionNode. */
  datatype DefinitionNode =
      ExecutableDef(executableDefinitionNode: ExecutableDefinitionNode)
    | TypeSystemDef(typeSystemDefinitionNode: TypeSystemDefinitionNode)
    | TypeSystemExt(typeSystemExtensionNode: TypeSystemExtensionNode)

  /** A value of any of the 48 node classes. */
  datatype AnyNode =
      OfName(nameNode: NameNode)
    | OfDocument(documentNode: DocumentNode)
    | OfOperationDefinition(operationDefinitionNode: OperationDefinitionNode)
    | OfVariableDefinition(variableDefinitionNode: VariableDefinitionNode)
    | OfVariable(variableNode: VariableNode)
    | OfSelectionSet(selectionSetNode: SelectionSetNode)
    | OfField(fieldNode: FieldNode)
    | OfArgument(argumentNode: ArgumentNode)
    | OfConstArgument(constArgumentNode: ConstArgumentNode)
    | OfFragmentSpread(fragmentSpreadNode: FragmentSpreadNode)
    | OfInlineFragment(inlineFragmentNode: InlineFragmentNode)
    | OfFragmentDefinition(fragmentDefinitionNode: FragmentDefinitionNode)
    | OfIntValue(intValueNode: IntValueNode)
    | OfFloatValue(floatValueNode: FloatValueNode)
    | OfStringValue(stringValueNode: StringValueNode)
    | OfBooleanValue(booleanValueNode: BooleanValueNode)
    | OfNullValue(nullValueNode: NullValueNode)
    | OfEnumValue(enumValueNode: EnumValueNode)
    | OfListValue(listValueNode: ListValueNode)
    | OfConstListValue(constListValueNode: ConstListValueNode)
    | OfObjectValue(objectValueNode: ObjectValueNode)
    | OfConstObjectValue(constObjectValueNode: ConstObjectValueNode)
    | OfObjectField(objectFieldNode: ObjectFieldNode)
    | OfConstObjectField(constObjectFieldNode: ConstObjectFieldNode)
    | OfDirective(directiveNode: DirectiveNode)
    | OfConstDirective(constDirectiveNode: ConstDirectiveNode)
    | OfNamedType(namedTypeNode: NamedTypeNode)
    | OfListType(listTypeNode: ListTypeNode)
    | OfNonNullType(nonNullTypeNode: NonNullTypeNode)
    | OfSchemaDefinition(schemaDefinitionNode: SchemaDefinitionNode)
    | OfOperationTypeDefinition(operationTypeDefinitionNode: OperationTypeDefinitionNode)
    | OfScalarTypeDefinition(scalarTypeDefinitionNode: ScalarTypeDefinitionNode)
    | OfObjectTypeDefinition(objectTypeDefinitionNode: ObjectTypeDefinitionNode)
    | OfFieldDefinition(fieldDefinitionNode: FieldDefinitionNode)
    | OfInputValueDefinition(inputValueDefinitionNode: InputValueDefinitionNode)
    | OfInterfaceTypeDefinition(interfaceTypeDefinitionNode: InterfaceTypeDefinitionNode)
    | OfUnionTypeDefinition(unionTypeDefinitionNode: UnionTypeDefinitionNode)
    | OfEnumTypeDefinition(enumTypeDefinitionNode: EnumTypeDefinitionNode)
    | OfEnumValueDefinition(enumValueDefinitionNode: EnumValueDefinitionNode)
    | OfInputObjectTypeDefinition(inputObjectTypeDefinitionNode: InputObjectTypeDefinitionNode)
    | OfDirectiveDefinition(directiveDefinitionNode: DirectiveDefinitionNode)
    | OfSchemaExtension(schemaExtensionNode: SchemaExtensionNode)
    | OfScalarTypeExtension(scalarTypeExtensionNode: ScalarTypeExtensionNode)
    | OfObjectTypeExtension(objectTypeExtensionNode: ObjectTypeExtensionNode)
    | OfInterfaceTypeExtension(interfaceTypeExtensionNode: InterfaceTypeExtensionNode)
    | OfUnionTypeExtension(unionTypeExtensionNode: UnionTypeExtensionNode)
    | OfEnumTypeExtension(enumTypeExtensionNode: EnumTypeExtensionNode)
    | OfInputObjectTypeExtension(inputObjectTypeExtensionNode: InputObjectTypeExtensionNode)

  /** An arbitrary value handed to `is_node`: a node, or anything else. */
  datatype Value = NodeValue(node: AnyNode) | OtherValue

  /** The `kind` tag of a node. */
  function Kind(n: AnyNode): string {
    match n
    case OfName(x) => x.kind
    case OfDocument(x) => x.kind
    case OfOperationDefinition(x) => x.kind
    case OfVariableDefinition(x) => x.kind
    case OfVariable(x) => x.kind
    case OfSelectionSet(x) => x.kind
    case OfField(x) => x.kind
    case OfArgument(x) => x.kind
    case OfConstArgument(x) => x.kind
    case OfFragmentSpread(x) => x.kind
    case OfInlineFragment(x) => x.kind
    case OfFragmentDefinition(x) => x.kind
    case OfIntValue(x) => x.kind
    case OfFloatValue(x) => x.kind
    case OfStringValue(x) => x.kind
    case OfBooleanValue(x) => x.kind
    case OfNullValue(x) => x.kind
    case OfEnumValue(x) => x.kind
    case OfListValue(x) => x.kind
    case OfConstListValue(x) => x.kind
    case OfObjectValue(x) => x.kind
    case OfConstObjectValue(x) => x.kind
    case OfObjectField(x) => x.kind
    case OfConstObjectField(x) => x.kind
    case OfDirective(x) => x.kind
    case OfConstDirective(x) => x.kind
    case OfNamedType(x) => x.kind
    case OfListType(x) => x.kind
    case OfNonNullType(x) => x.kind
    case OfSchemaDefinition(x) => x.kind
    case OfOperationTypeDefinition(x) => x.kind
    case OfScalarTypeDefinition(x) => x.kind
    case OfObjectTypeDefinition(x) => x.kind
    case OfFieldDefinition(x) => x.kind
    case OfInputValueDefinition(x) => x.kind
    case OfInterfaceTypeDefinition(x) => x.kind
    case OfUnionTypeDefinition(x) => x.kind
    case OfEnumTypeDefinition(x) => x.kind
    case OfEnumValueDefinition(x) => x.kind
    case OfInputObjectTypeDefinition(x) => x.kind
    case OfDirectiveDefinition(x) => x.kind
    case OfSchemaExtension(x) => x.kind
    case OfScalarTypeExtension(x) => x.kind
    case OfObjectTypeExtension(x) => x.kind
    case OfInterfaceTypeExtension(x) => x.kind
    case OfUnionTypeExtension(x) => x.kind
    case OfEnumTypeExtension(x) => x.kind
    case OfInputObjectTypeExtension(x) => x.kind
  }

  /** The members of `ASTKindToNode`, in declaration order. */
  datatype ASTKind =
      Name
    | Document
    | OperationDefinition
    | VariableDefinition
    | Variable
    | SelectionSet
    | Field
    | Argument
    | FragmentSpread
    | InlineFragment
    | FragmentDefinition
    | IntValue
    | FloatValue
    | StringValue
    | BooleanValue
    | NullValue
    | EnumValue
    | ListValue
    | ObjectValue
    | ObjectField
    | Directive
    | NamedType
    | ListType
    | NonNullType
    | SchemaDefinition
    | OperationTypeDefinition
    | ScalarTypeDefinition
    | ObjectTypeDefinition
    | FieldDefinition
    | InputValueDefinition
    | InterfaceTypeDefinition
    | UnionTypeDefinition
    | EnumTypeDefinition
    | EnumValueDefinition
    | InputObjectTypeDefinition
    | DirectiveDefinition
    | SchemaExtension
    | ScalarTypeExtension
    | ObjectTypeExtension
    | InterfaceTypeExtension
    | UnionTypeExtension
    | EnumTypeExtension
    | InputObjectTypeExtension

  /** The name of an `ASTKindToNode` member. */
  function MemberName(k: ASTKind): string {
    match k
    case Name => "Name"
    case Document => "Document"
    case OperationDefinition => "OperationDefinition"
    case VariableDefinition => "VariableDefinition"
    case Variable => "Variable"
    case SelectionSet => "SelectionSet"
    case Field => "Field"
    case Argument => "Argument"
    case FragmentSpread => "FragmentSpread"
    case InlineFragment => "InlineFragment"
    case FragmentDefinition => "FragmentDefinition"
    case IntValue => "IntValue"
    case FloatValue => "FloatValue"
    case StringValue => "StringValue"
    case BooleanValue => "BooleanValue"
    case NullValue => "NullValue"
    case EnumValue => "EnumValue"
    case ListValue => "ListValue"
    case ObjectValue => "ObjectValue"
    case ObjectField => "ObjectField"
    case Directive => "Directive"
    case NamedType => "NamedType"
    case ListType => "ListType"
    case NonNullType => "NonNullType"
    case SchemaDefinition => "SchemaDefinition"
    case OperationTypeDefinition => "OperationTypeDefinition"
    case ScalarTypeDefinition => "ScalarTypeDefinition"
    case ObjectTypeDefinition => "ObjectTypeDefinition"
    case FieldDefinition => "FieldDefinition"
    case InputValueDefinition => "InputValueDefinition"
    case InterfaceTypeDefinition => "InterfaceTypeDefinition"
    case UnionTypeDefinition => "UnionTypeDefinition"
    case EnumTypeDefinition => "EnumTypeDefinition"
    case EnumValueDefinition => "EnumValueDefinition"
    case InputObjectTypeDefinition => "InputObjectTypeDefinition"
    case DirectiveDefinition => "DirectiveDefinition"
    case SchemaExtension => "SchemaExtension"
    case ScalarTypeExtension => "ScalarTypeExtension"
    case ObjectTypeExtension => "ObjectTypeExtension"
    case InterfaceTypeExtension => "InterfaceTypeExtension"
    case UnionTypeExtension => "UnionTypeExtension"
    case EnumTypeExtension => "EnumTypeExtension"
    case InputObjectTypeExtension => "InputObjectTypeExtension"
  }

  /**
   * `ASTKindToNode`: each member stands for a node class, given here by that
   * class's `kind` tag.
   */
  function ClassKind(k: ASTKind): string {
    match k
    case Name => NameNode.Kind
    case Document => DocumentNode.Kind
    case OperationDefinition => OperationDefinitionNode.Kind
    case VariableDefinition => VariableDefinitionNode.Kind
    case Variable => VariableNode.Kind
    case SelectionSet => SelectionSetNode.Kind
    case Field => FieldNode.Kind
    case Argument => ArgumentNode.Kind
    case FragmentSpread => FragmentSpreadNode.Kind
    case InlineFragment => InlineFragmentNode.Kind
    case FragmentDefinition => FragmentDefinitionNode.Kind
    case IntValue => IntValueNode.Kind
    case FloatValue => FloatValueNode.Kind
    case StringValue => StringValueNode.Kind
    case BooleanValue => BooleanValueNode.Kind
    case NullValue => NullValueNode.Kind
    case EnumValue => EnumValueNode.Kind
    case ListValue => ListValueNode.Kind
    case ObjectValue => ObjectValueNode.Kind
    case ObjectField => ObjectFieldNode.Kind
    case Directive => DirectiveNode.Kind
    case NamedType => NamedTypeNode.Kind
    case ListType => ListTypeNode.Kind
    case NonNullType => NonNullTypeNode.Kind
    case SchemaDefinition => SchemaDefinitionNode.Kind
    case OperationTypeDefinition => OperationTypeDefinitionNode.Kind
    case ScalarTypeDefinition => ScalarTypeDefinitionNode.Kind
    case ObjectTypeDefinition => ObjectTypeDefinitionNode.Kind
    case FieldDefinition => FieldDefinitionNode.Kind
    case InputValueDefinition => InputValueDefinitionNode.Kind
    case InterfaceTypeDefinition => InterfaceTypeDefinitionNode.Kind
    case UnionTypeDefinition => UnionTypeDefinitionNode.Kind
    case EnumTypeDefinition => EnumTypeDefinitionNode.Kind
    case EnumValueDefinition => EnumValueDefinitionNode.Kind
    case InputObjectTypeDefinition => InputObjectTypeDefinitionNode.Kind
    case DirectiveDefinition => DirectiveDefinitionNode.Kind
    case SchemaExtension => SchemaExtensionNode.Kind
    case ScalarTypeExtension => ScalarTypeExtensionNode.Kind
    case ObjectTypeExtension => ObjectTypeExtensionNode.Kind
    case InterfaceTypeExtension => InterfaceTypeExtensionNode.Kind
    case UnionTypeExtension => UnionTypeExtensionNode.Kind
    case EnumTypeExtension => EnumTypeExtensionNode.Kind
    case InputObjectTypeExtension => InputObjectTypeExtensionNode.Kind
  }

  /** The `ASTKindToNode` member naming a node's class; the Const variants have none. */
  function Member(n: AnyNode): Option<ASTKind> {
    match n
    case OfName(_) => Some(ASTKind.Name)
    case OfDocument(_) => Some(ASTKind.Document)
    case OfOperationDefinition(_) => Some(ASTKind.OperationDefinition)
    case OfVariableDefinition(_) => Some(ASTKind.VariableDefinition)
    case OfVariable(_) => Some(ASTKind.Variable)
    case OfSelectionSet(_) => Some(ASTKind.SelectionSet)
    case OfField(_) => Some(ASTKind.Field)
    case OfArgument(_) => Some(ASTKind.Argument)
    case OfConstArgument(_) => None
    case OfFragmentSpread(_) => Some(ASTKind.FragmentSpread)
    case OfInlineFragment(_) => Some(ASTKind.InlineFragment)
    case OfFragmentDefinition(_) => Some(ASTKind.FragmentDefinition)
    case OfIntValue(_) => Some(ASTKind.IntValue)
    case OfFloatValue(_) => Some(ASTKind.FloatValue)
    case OfStringValue(_) => Some(ASTKind.StringValue)
    case OfBooleanValue(_) => Some(ASTKind.BooleanValue)
    case OfNullValue(_) => Some(ASTKind.NullValue)
    case OfEnumValue(_) => Some(ASTKind.EnumValue)
    case OfListValue(_) => Some(ASTKind.ListValue)
    case OfConstListValue(_) => None
    case OfObjectValue(_) => Some(ASTKind.ObjectValue)
    case OfConstObjectValue(_) => None
    case OfObjectField(_) => Some(ASTKind.ObjectField)
    case OfConstObjectField(_) => None
    case OfDirective(_) => Some(ASTKind.Directive)
    case OfConstDirective(_) => None
    case OfNamedType(_) => Some(ASTKind.NamedType)
    case OfListType(_) => Some(ASTKind.ListType)
    case OfNonNullType(_) => Some(ASTKind.NonNullType)
    case OfSchemaDefinition(_) => Some(ASTKind.SchemaDefinition)
    case OfOperationTypeDefinition(_) => Some(ASTKind.OperationTypeDefinition)
    case OfScalarTypeDefinition(_) => Some(ASTKind.ScalarTypeDefinition)
    case OfObjectTypeDefinition(_) => Some(ASTKind.ObjectTypeDefinition)
    case OfFieldDefinition(_) => Some(ASTKind.FieldDefinition)
    case OfInputValueDefinition(_) => Some(ASTKind.InputValueDefinition)
    case OfInterfaceTypeDefinition(_) => Some(ASTKind.InterfaceTypeDefinition)
    case OfUnionTypeDefinition(_) => Some(ASTKind.UnionTypeDefinition)
    case OfEnumTypeDefinition(_) => Some(ASTKind.EnumTypeDefinition)
    case OfEnumValueDefinition(_) => Some(ASTKind.EnumValueDefinition)
    case OfInputObjectTypeDefinition(_) => Some(ASTKind.InputObjectTypeDefinition)
    case OfDirectiveDefinition(_) => Some(ASTKind.DirectiveDefinition)
    case OfSchemaExtension(_) => Some(ASTKind.SchemaExtension)
    case OfScalarTypeExtension(_) => Some(ASTKind.ScalarTypeExtension)
    case OfObjectTypeExtension(_) => Some(ASTKind.ObjectTypeExtension)
    case OfInterfaceTypeExtension(_) => Some(ASTKind.InterfaceTypeExtension)
    case OfUnionTypeExtension(_) => Some(ASTKind.UnionTypeExtension)
    case OfEnumTypeExtension(_) => Some(ASTKind.EnumTypeExtension)
    case OfInputObjectTypeExtension(_) => Some(ASTKind.InputObjectTypeExtension)
  }

  /** `is_node(value)`: whether the value's class is one of the `ASTNode` union. */
  function IsNode(v: Value): bool {
    match v
    case OtherValue => false
    case NodeValue(n) =>
      match n
      case OfName(_) => true
      case OfDocument(_) => true
      case OfOperationDefinition(_) => true
      case OfVariableDefinition(_) => true
      case OfVariable(_) => true
      case OfSelectionSet(_) => true
      case OfField(_) => true
      case OfArgument(_) => true
      case OfConstArgument(_) => false
      case OfFragmentSpread(_) => true
      case OfInlineFragment(_) => true
      case OfFragmentDefinition(_) => true
      case OfIntValue(_) => true
      case OfFloatValue(_) => true
      case OfStringValue(_) => true
      case OfBooleanValue(_) => true
      case OfNullValue(_) => true
      case OfEnumValue(_) => true
      case OfListValue(_) => true
      case OfConstListValue(_) => false
      case OfObjectValue(_) => true
      case OfConstObjectValue(_) => false
      case OfObjectField(_) => true
      case OfConstObjectField(_) => false
      case OfDirective(_) => true
      case OfConstDirective(_) => false
      case OfNamedType(_) => true
      case OfListType(_) => true
      case OfNonNullType(_) => true
      case OfSchemaDefinition(_) => true
      case OfOperationTypeDefinition(_) => true
      case OfScalarTypeDefinition(_) => true
      case OfObjectTypeDefinition(_) => true
      case OfFieldDefinition(_) => true
      case OfInputValueDefinition(_) => true
      case OfInterfaceTypeDefinition(_) => true
      case OfUnionTypeDefinition(_) => true
      case OfEnumTypeDefinition(_) => true
      case OfEnumValueDefinition(_) => true
      case OfInputObjectTypeDefinition(_) => true
      case OfDirectiveDefinition(_) => true
      case OfSchemaExtension(_) => true
      case OfScalarTypeExtension(_) => true
      case OfObjectTypeExtension(_) => true
      case OfInterfaceTypeExtension(_) => true
      case OfUnionTypeExtension(_) => true
      case OfEnumTypeExtension(_) => true
      case OfInputObjectTypeExtension(_) => true
  }

  /** `is_node` holds exactly for the classes `ASTKindToNode` lists. */
  lemma IsNodeIffMember(v: Value)
    ensures IsNode(v) <==> v.NodeValue? && Member(v.node).Some?
  {
  }

  /** The Const variants and non-node values are not nodes. */
  lemma ConstVariantsAreNotNodes(a: ConstArgumentNode, l: ConstListValueNode, o: ConstObjectValueNode,
                                 f: ConstObjectFieldNode, d: ConstDirectiveNode)
    ensures !IsNode(NodeValue(OfConstArgument(a))) && !IsNode(NodeValue(OfConstListValue(l)))
    ensures !IsNode(NodeValue(OfConstObjectValue(o))) && !IsNode(NodeValue(OfConstObjectField(f)))
    ensures !IsNode(NodeValue(OfConstDirective(d))) && !IsNode(OtherValue)
  {
  }

  /** A Const variant carries the same tag as the class it mirrors. */
  lemma ConstVariantsShareKinds(a: ConstArgumentNode, a': ArgumentNode, l: ConstListValueNode, l': ListValueNode,
                                o: ConstObjectValueNode, o': ObjectValueNode, f: ConstObjectFieldNode,
                                f': ObjectFieldNode, d: ConstDirectiveNode, d': DirectiveNode)
    ensures a.kind == a'.kind == "Argument"
    ensures l.kind == l'.kind == "ListValue"
    ensures o.kind == o'.kind == "ObjectValue"
    ensures f.kind == f'.kind == "ObjectField"
    ensures d.kind == d'.kind == "Directive"
  {
  }

  /** Every member's name is its class's tag, except `BooleanValue`, whose nodes are tagged 'BoolValue'. */
  lemma MemberNameIsKind(k: ASTKind)
    ensures ClassKind(k) == MemberName(k) <==> k != ASTKind.BooleanValue
    ensures k == ASTKind.BooleanValue ==> ClassKind(k) == "BoolValue"
  {
  }

  /** A node's tag is its class's tag, whatever its fields. */
  lemma KindIsClassTag(n: AnyNode)
    ensures n.OfName? ==> Kind(n) == "Name"
    ensures n.OfBooleanValue? ==> Kind(n) == "BoolValue"
    ensures n.OfConstArgument? ==> Kind(n) == "Argument"
  {
  }
}
