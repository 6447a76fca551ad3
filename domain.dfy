/**
 * The values that travel through the blackboard of triangle_agents: angles,
 * triangles, the payloads a store entry can hold and the type tags that
 * describe them. Shared by the C and the C++ halves of the model.
 */
module Domain {

  datatype Option<+T> = None | Some(value: T)

  /** One interior angle; `value` means something only when `isKnown` holds. */
  datatype Angle = Angle(value: real, isKnown: bool)

  /** The three angles A, B, C of a triangle, in that order (`angles[3]`). */
  type Triangle = s: seq<Angle> | |s| == 3
    witness [Angle(0.0, false), Angle(0.0, false), Angle(0.0, false)]

  /**
   * What a store entry can hold. The C store keeps `void*` and the C++ store
   * keeps `void*` behind a template: here every payload is held by value.
   * `IntV` is the C verdict (`int is_right`), `BoolV` the C++ one, and
   * `RulesV` the rule set both harnesses store whose contents no agent reads.
   */
  datatype Payload =
    | TriangleV(triangle: Triangle)
    | IntV(n: int)
    | BoolV(flag: bool)
    | RulesV(rules: map<string, string>)

  /**
   * The semantic type of a payload: the C type strings "triangle", "int",
   * "rules_set" and the C++ `typeid(T).name()` of `Triangle`, `bool` and
   * `std::map<std::string, std::string>`.
   */
  datatype Tag = TriangleTag | IntTag | BoolTag | RulesTag

  function TagOf(p: Payload): Tag
  {
    match p
    case TriangleV(_) => TriangleTag
    case IntV(_) => IntTag
    case BoolV(_) => BoolTag
    case RulesV(_) => RulesTag
  }

  /** The keys the agents read and write. */
  const InputTriangleKey: string := "input_triangle"
  const RulesSetKey: string := "rules_set"
  const IsRightKey: string := "is_right_triangle"
}
