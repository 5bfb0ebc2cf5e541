/** The internal role-model template, as far as loads and traffic depend on it. */
module RoleModel {
  import opened Prelude

  type Role = Name

  /** Load coefficients of `max(0, a*x + b)`. */
  datatype Coefficients = Coefficients(a: real, b: real)

  datatype RoleSpec = RoleSpec(count: nat, cpu: Coefficients, ram: Coefficients, net: Coefficients)

  datatype Edge = Edge(src: Role, dst: Role)

  /** The input signal: one number for every source role, or one per source role. */
  datatype Signal = Uniform(x: real) | PerRole(xs: map<Role, real>)

  /** `order` is the order in which the roles were declared. */
  datatype Template = Template(x: Signal, order: seq<Role>, roles: map<Role, RoleSpec>, edges: seq<Edge>)

  /** What template validation establishes before any graph computation runs. */
  ghost predicate WellFormed(t: Template) {
    && Distinct(t.order)
    && Elements(t.order) == t.roles.Keys
    && (forall e | e in t.edges :: e.src in t.roles && e.dst in t.roles)
    && (forall r | r in t.roles :: t.roles[r].count >= 1)
  }

  /** The formula, cut off at zero. */
  function Linear(c: Coefficients, x: real): (load: real)
    ensures load >= 0.0 && load >= c.a * x + c.b
    ensures load == 0.0 || load == c.a * x + c.b
  {
    if c.a * x + c.b > 0.0 then c.a * x + c.b else 0.0
  }

  /** What a role sends in total when its formulas run at `x`. */
  function RoleEgress(spec: RoleSpec, x: real): real {
    spec.count as real * Linear(spec.net, x)
  }

  /** A source role missing from a per-role signal starts at 0. */
  function SourceX(signal: Signal, r: Role): real {
    match signal
    case Uniform(x) => x
    case PerRole(xs) => if r in xs then xs[r] else 0.0
  }
}
