/** The Navigation-Compose back stack of the app's `NavHost`, reduced to the order of
    its destinations. The root graph entry is not kept: `popUpTo(0)` names the root
    graph (its id is 0), so with or without `inclusive` it removes every destination. */
module Navigation {
  import opened KotlinText

  /** The seven `composable(...)` destinations of the NavHost. */
  datatype Route = Onboarding | Login | Register | PhysicalData | Home | Profile | EditProfile

  /** The route string each destination is registered under. */
  function RouteName(r: Route): string {
    match r
    case Onboarding => "onboarding"
    case Login => "login"
    case Register => "register"
    case PhysicalData => "physical_data"
    case Home => "home"
    case Profile => "profile"
    case EditProfile => "edit_profile"
  }

  /** The `popUpTo` option of a `navigate` call: none, `popUpTo(0)`, or `popUpTo(route)`
      with its `inclusive` flag. */
  datatype PopUpTo = NoPop | PopAll | PopTo(route: Route, inclusive: bool)

  type BackStack = seq<Route>

  /** The position of the topmost entry for `r`, as NavController searches the back
      stack from the top. */
  function TopmostIndex(stack: BackStack, r: Route): (i: Option<nat>)
    ensures i.Some? ==> i.value < |stack| && stack[i.value] == r && r !in stack[i.value + 1..]
    ensures i.None? <==> r !in stack
  {
    if stack == [] then None
    else if stack[|stack| - 1] == r then Some(|stack| - 1)
    else
      var below := stack[..|stack| - 1];
      match TopmostIndex(below, r)
      case None =>
        assert stack == below + [stack[|stack| - 1]];
        None
      case Some(k) =>
        assert stack[k + 1..] == below[k + 1..] + [stack[|stack| - 1]];
        Some(k)
  }

  /** `navigate(dest) { popUpTo(...) }`: pop as the option says (a `popUpTo(route)` whose
      route is not on the stack pops nothing), then push `dest`. */
  function Navigate(stack: BackStack, dest: Route, pop: PopUpTo): (r: BackStack)
    ensures |r| > 0 && r[|r| - 1] == dest
    ensures |r| - 1 <= |stack| && r[..|r| - 1] == stack[..|r| - 1]
    ensures pop.NoPop? ==> r == stack + [dest]
    ensures pop.PopAll? ==> r == [dest]
    ensures pop.PopTo? && pop.route !in stack ==> r == stack + [dest]
    // inclusive: everything from the topmost entry for the route upwards is removed
    ensures pop.PopTo? && pop.route in stack && pop.inclusive ==>
              var k := |r| - 1; k < |stack| && stack[k] == pop.route && pop.route !in stack[k + 1..]
    // not inclusive: the topmost entry for the route is kept, right below `dest`
    ensures pop.PopTo? && pop.route in stack && !pop.inclusive ==>
              |r| >= 2 && r[|r| - 2] == pop.route && pop.route !in stack[|r| - 1..]
  {
    match pop
    case NoPop => stack + [dest]
    case PopAll => [dest]
    case PopTo(route, inclusive) =>
      match TopmostIndex(stack, route)
      case None => stack + [dest]
      case Some(i) => if inclusive then stack[..i] + [dest] else stack[..i + 1] + [dest]
  }

  /** `popBackStack()`: the top entry is removed; an empty stack stays empty. */
  function PopBack(stack: BackStack): (r: BackStack)
    ensures |stack| > 0 ==> r == stack[..|stack| - 1]
    ensures |stack| == 0 ==> r == []
  {
    if |stack| > 0 then stack[..|stack| - 1] else stack
  }

  /** The destination on screen: the top of the back stack. */
  function Current(stack: BackStack): (r: Option<Route>)
    ensures r.None? <==> stack == []
    ensures r.Some? ==> r.value == stack[|stack| - 1]
  {
    if stack == [] then None else Some(stack[|stack| - 1])
  }

  /** Every destination has its own route string. */
  lemma RouteNamesDistinct(a: Route, b: Route)
    requires a != b
    ensures RouteName(a) != RouteName(b)
  {
  }

  /** After a `navigate`, what is on screen is its destination, whatever was popped. */
  lemma NavigateShows(stack: BackStack, dest: Route, pop: PopUpTo)
    ensures Current(Navigate(stack, dest, pop)) == Some(dest)
  {
  }

  /** Going back right after a plain `navigate` returns to the same stack. */
  lemma BackUndoesPlainNavigate(stack: BackStack, dest: Route)
    ensures PopBack(Navigate(stack, dest, NoPop)) == stack
  {
  }
}
