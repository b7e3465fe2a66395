/**
 * Reading the XML scene configuration. The document is an element tree;
 * what the three releases do with it differs:
 *
 *  - the fourth release (pugixml) reads camera and window attributes with
 *    defaults, lights, and for each group the last `transform` and the last
 *    `models` child, with model references that carry a texture and a
 *    material;
 *  - the third release (pugixml) has no defaults: a missing attribute makes
 *    the number conversion throw;
 *  - the second release (tinyxml2) reads only the first `colour`,
 *    `transform` and `models` child of a group, and every missing or
 *    unreadable attribute takes a default.
 *
 * Exceptions nothing catches are Failures. Number text goes through the
 * `RealText` parse; pugixml's as_float reads text without a number as 0.
 */
module ConfigReading {
  import opened Wrappers
  import opened Vectors
  import opened Text
  import Stores
  import Lights
  import CameraControl
  import ScalarCamera
  import CsvVertices

  datatype Element = Element(name: string, attrs: map<string, string>, children: seq<Element>)

  // ----- navigation -----

  /** The first element with the given name; None is the null node. */
  function FirstNamed(es: seq<Element>, name: string): (r: Option<Element>)
    ensures r.Some? ==> r.value in es && r.value.name == name
    ensures r.None? <==> forall i :: 0 <= i < |es| ==> es[i].name != name
  {
    if es == [] then None else if es[0].name == name then Some(es[0]) else FirstNamed(es[1..], name)
  }

  /** child(name) / FirstChildElement(name); the null node has no children. */
  function Child(node: Option<Element>, name: string): Option<Element> {
    if node.None? then None else FirstNamed(node.value.children, name)
  }

  /** children(name): the elements with that name, in document order. */
  function Named(es: seq<Element>, name: string): (r: seq<Element>)
    ensures |r| <= |es|
    ensures forall i :: 0 <= i < |r| ==> r[i].name == name && r[i] in es
  {
    if es == [] then [] else (if es[0].name == name then [es[0]] else []) + Named(es[1..], name)
  }

  function Attr(node: Option<Element>, key: string): Option<string> {
    if node.Some? && key in node.value.attrs then Some(node.value.attrs[key]) else None
  }

  /** attribute(key).value(): the empty string when absent. */
  function Value(node: Option<Element>, key: string): string {
    match Attr(node, key)
    case None => ""
    case Some(s) => s
  }

  // ----- numbers -----

  /** std::stof / std::stod: no number in the text throws. */
  function Stof(rt: RealText, s: string): (r: Result<real>)
    ensures s == "" ==> r.Failure?
  {
    if s == "" then Failure("stof")
    else match rt.parse(s)
      case None => Failure("stof")
      case Some(x) => Ok(x)
  }

  /** Three attributes through stof, in order. */
  function StofVec(rt: RealText, node: Option<Element>, kx: string, ky: string, kz: string): (r: Result<Vec3>)
    ensures (Value(node, kx) == "" || Value(node, ky) == "" || Value(node, kz) == "") ==> r.Failure?
  {
    match Stof(rt, Value(node, kx))
    case Failure(e) => Failure(e)
    case Ok(x) =>
      match Stof(rt, Value(node, ky))
      case Failure(e) => Failure(e)
      case Ok(y) =>
        match Stof(rt, Value(node, kz))
        case Failure(e) => Failure(e)
        case Ok(z) => Ok(Vec3(x, y, z))
  }

  /** pugixml as_float(def) / as_double(def): the default when the
      attribute is absent, 0 when its text holds no number. */
  function AsFloat(rt: RealText, node: Option<Element>, key: string, def: real): (r: real)
    ensures Attr(node, key).None? ==> r == def
  {
    match Attr(node, key)
    case None => def
    case Some(s) => match rt.parse(s) case None => 0.0 case Some(x) => x
  }

  function AsVec(rt: RealText, node: Option<Element>, def: Vec3): (r: Vec3)
    ensures node.None? ==> r == def
  {
    Vec3(AsFloat(rt, node, "x", def.x), AsFloat(rt, node, "y", def.y), AsFloat(rt, node, "z", def.z))
  }

  /** pugixml as_int(def): the default when absent, 0 when the text holds
      no decimal int. */
  function AsInt(node: Option<Element>, key: string, def: int): (r: int)
    ensures Attr(node, key).None? ==> r == def
  {
    match Attr(node, key)
    case None => def
    case Some(s) => match Stoi(s) case Failure(_) => 0 case Ok(v) => v
  }

  /** tinyxml2 QueryFloatAttribute on a variable holding the default: the
      default survives an absent or unreadable attribute. */
  function QueryFloat(rt: RealText, node: Option<Element>, key: string, def: real): (r: real)
    ensures Attr(node, key).None? ==> r == def
  {
    match Attr(node, key)
    case None => def
    case Some(s) => match rt.parse(s) case None => def case Some(x) => x
  }

  function QueryInt(node: Option<Element>, key: string, def: int): (r: int)
    ensures Attr(node, key).None? ==> r == def
  {
    match Attr(node, key)
    case None => def
    case Some(s) => match Stoi(s) case Failure(_) => def case Ok(v) => v
  }

  // ----- transforms -----

  /** What a `transform` child describes. The second release knows only
      the first three. */
  datatype TransformSpec =
    | Translate(offset: Vec3)
    | Rotate(angle: real, axis: Vec3)
    | Scale(factors: Vec3)
    | AnimatedTranslate(period: real, aligned: bool, points: seq<Vec3>)
    | AnimatedRotate(period: real, axis: Vec3)

  /** The `point` children of an animated translation, in order. */
  function Points(rt: RealText, ps: seq<Element>): (r: Result<seq<Vec3>>)
    ensures r.Ok? ==> |r.value| == |ps|
  {
    if ps == [] then Ok([])
    else match Points(rt, ps[..|ps| - 1])
      case Failure(e) => Failure(e)
      case Ok(vs) =>
        match StofVec(rt, Some(ps[|ps| - 1]), "x", "y", "z")
        case Failure(e) => Failure(e)
        case Ok(v) => Ok(vs + [v])
  }

  /** One child of a `transform` element (third and fourth releases): None
      for other names and for an animated translation with fewer than four
      points, which is dropped with a warning. */
  function ReadTransform(rt: RealText, c: Element): Result<Option<TransformSpec>> {
    var node := Some(c);
    if c.name == "translate" then
      if "time" in c.attrs then
        match Stof(rt, c.attrs["time"])
        case Failure(e) => Failure(e)
        case Ok(time) =>
          var aligned := "align" in c.attrs && SaysTrue(c.attrs["align"]);
          match Points(rt, Named(c.children, "point"))
          case Failure(e) => Failure(e)
          case Ok(ps) => Ok(if |ps| >= 4 then Some(AnimatedTranslate(time, aligned, ps)) else None)
      else
        match StofVec(rt, node, "x", "y", "z")
        case Failure(e) => Failure(e)
        case Ok(v) => Ok(Some(Translate(v)))
    else if c.name == "rotate" then
      if "time" in c.attrs then
        match Stof(rt, c.attrs["time"])
        case Failure(e) => Failure(e)
        case Ok(time) =>
          match StofVec(rt, node, "x", "y", "z")
          case Failure(e) => Failure(e)
          case Ok(axis) => Ok(Some(AnimatedRotate(time, axis)))
      else
        match Stof(rt, Value(node, "angle"))
        case Failure(e) => Failure(e)
        case Ok(angle) =>
          match StofVec(rt, node, "x", "y", "z")
          case Failure(e) => Failure(e)
          case Ok(axis) => Ok(Some(Rotate(angle, axis)))
    else if c.name == "scale" then
      match StofVec(rt, node, "x", "y", "z")
      case Failure(e) => Failure(e)
      case Ok(v) => Ok(Some(Scale(v)))
    else Ok(None)
  }

  /** The rules for one child: other names are ignored; a `time`
      attribute makes a translate or rotate animated; an animated
      translation keeps all its points, needs at least four and is aligned
      exactly when `align` is present and says true; with fewer than four
      readable points it is dropped. */
  lemma ReadTransformCases(rt: RealText, c: Element)
    ensures c.name !in ["translate", "rotate", "scale"] ==> ReadTransform(rt, c) == Ok(None)
    ensures var r := ReadTransform(rt, c);
      r.Ok? && r.value.Some? ==>
        match r.value.value
        case Translate(_) => c.name == "translate" && "time" !in c.attrs
        case Rotate(_, _) => c.name == "rotate" && "time" !in c.attrs
        case Scale(_) => c.name == "scale"
        case AnimatedRotate(_, _) => c.name == "rotate" && "time" in c.attrs
        case AnimatedTranslate(_, aligned, ps) =>
          c.name == "translate" && "time" in c.attrs && |ps| >= 4
          && |ps| == |Named(c.children, "point")|
          && (aligned <==> "align" in c.attrs && SaysTrue(c.attrs["align"]))
    ensures var r := ReadTransform(rt, c);
      c.name == "translate" && "time" in c.attrs && r.Ok? ==>
        (r.value.None? <==> |Named(c.children, "point")| < 4)
  {
  }

  /** The children of a `transform` element in document order. */
  function Transforms(rt: RealText, es: seq<Element>): Result<seq<TransformSpec>> {
    if es == [] then Ok([])
    else match Transforms(rt, es[..|es| - 1])
      case Failure(e) => Failure(e)
      case Ok(ts) =>
        match ReadTransform(rt, es[|es| - 1])
        case Failure(e) => Failure(e)
        case Ok(None) => Ok(ts)
        case Ok(Some(t)) => Ok(ts + [t])
  }

  predicate WellFormed(ts: seq<TransformSpec>) {
    forall i :: 0 <= i < |ts| && ts[i].AnimatedTranslate? ==> |ts[i].points| >= 4
  }

  /** Every animated translation kept has at least four points, and no
      child gives more than one transform. */
  lemma {:induction false} TransformsWellFormed(rt: RealText, es: seq<Element>)
    requires Transforms(rt, es).Ok?
    ensures WellFormed(Transforms(rt, es).value) && |Transforms(rt, es).value| <= |es|
    decreases |es|
  {
    if es != [] {
      TransformsWellFormed(rt, es[..|es| - 1]);
      ReadTransformCases(rt, es[|es| - 1]);
    }
  }

  /** Document order: the transforms of two runs of children are those of
      the first followed by those of the second. */
  lemma {:induction false} TransformsConcat(rt: RealText, a: seq<Element>, b: seq<Element>)
    ensures Transforms(rt, a + b) ==
      match Transforms(rt, a)
      case Failure(e) => Failure(e)
      case Ok(ta) =>
        match Transforms(rt, b)
        case Failure(e) => Failure(e)
        case Ok(tb) => Ok(ta + tb)
    decreases |b|
  {
    if b == [] {
      assert a + b == a;
      if Transforms(rt, a).Ok? {
        assert Transforms(rt, a).value + [] == Transforms(rt, a).value;
      }
    } else {
      var b' := b[..|b| - 1];
      assert (a + b)[..|a + b| - 1] == a + b';
      assert (a + b)[|a + b| - 1] == b[|b| - 1];
      TransformsConcat(rt, a, b');
      match Transforms(rt, a) {
        case Failure(_) =>
        case Ok(ta) =>
          match Transforms(rt, b') {
            case Failure(_) =>
            case Ok(tb) =>
              match ReadTransform(rt, b[|b| - 1]) {
                case Failure(_) =>
                case Ok(None) =>
                case Ok(Some(t)) => assert ta + tb + [t] == ta + (tb + [t]);
              }
          }
      }
    }
  }

  /** readTransforms: the children visited in document order. */
  method ReadTransforms(rt: RealText, transformsNode: Element) returns (r: Result<seq<TransformSpec>>)
    ensures r == Transforms(rt, transformsNode.children)
  {
    var es := transformsNode.children;
    var ts := [];
    var i := 0;
    while i < |es|
      invariant 0 <= i <= |es|
      invariant Transforms(rt, es[..i]) == Ok(ts)
    {
      var next := ReadTransformAt(rt, es, i, ts);
      if next.Failure? {
        TransformsFailurePersists(rt, es, i + 1);
        return next;
      }
      ts := next.value;
      i := i + 1;
    }
    assert es[..i] == es;
    r := Ok(ts);
  }

  /** One pass of the transform loop: child i read and, when it is a
      transform, appended to those read so far. */
  method ReadTransformAt(rt: RealText, es: seq<Element>, i: nat, ts: seq<TransformSpec>) returns (r: Result<seq<TransformSpec>>)
    requires i < |es| && Transforms(rt, es[..i]) == Ok(ts)
    ensures r == Transforms(rt, es[..i + 1])
  {
    assert es[..i + 1][..i] == es[..i];
    var t := ReadTransform(rt, es[i]);
    if t.Failure? {
      return Failure(t.error);
    }
    if t.value.Some? {
      return Ok(ts + [t.value.value]);
    }
    return Ok(ts);
  }

  lemma {:induction false} TransformsFailurePersists(rt: RealText, es: seq<Element>, i: nat)
    requires i <= |es| && Transforms(rt, es[..i]).Failure?
    ensures Transforms(rt, es) == Transforms(rt, es[..i])
    decreases |es| - i
  {
    if i < |es| {
      assert es[..i + 1][..i] == es[..i];
      TransformsFailurePersists(rt, es, i + 1);
    } else {
      assert es[..i] == es;
    }
  }

  // ----- materials (fourth release) -----

  /** R, G and B on the 0..255 scale, as fractions. */
  function Rgb(rt: RealText, c: Element): Result<Vec3> {
    match StofVec(rt, Some(c), "R", "G", "B")
    case Failure(e) => Failure(e)
    case Ok(v) => Ok(Scale255(v))
  }

  function Scale255(v: Vec3): Vec3 {
    Vec3(v.x / 255.0, v.y / 255.0, v.z / 255.0)
  }

  /** One child of a `color` element: the named field is replaced. */
  function MaterialStep(rt: RealText, m: Stores.Material, c: Element): Result<Stores.Material> {
    if c.name == "diffuse" then
      match Rgb(rt, c) case Failure(e) => Failure(e) case Ok(v) => Ok(m.(diffuse := v))
    else if c.name == "ambient" then
      match Rgb(rt, c) case Failure(e) => Failure(e) case Ok(v) => Ok(m.(ambient := v))
    else if c.name == "specular" then
      match Rgb(rt, c) case Failure(e) => Failure(e) case Ok(v) => Ok(m.(specular := v))
    else if c.name == "emissive" then
      match Rgb(rt, c) case Failure(e) => Failure(e) case Ok(v) => Ok(m.(emissive := v))
    else if c.name == "shininess" then
      match Stof(rt, Value(Some(c), "value")) case Failure(e) => Failure(e) case Ok(s) => Ok(m.(shininess := s))
    else Ok(m)
  }

  /** The children applied in order to the default material. */
  function MaterialOf(rt: RealText, es: seq<Element>): Result<Stores.Material> {
    if es == [] then Ok(Stores.DefaultMaterial)
    else match MaterialOf(rt, es[..|es| - 1])
      case Failure(e) => Failure(e)
      case Ok(m) => MaterialStep(rt, m, es[|es| - 1])
  }

  /** A field no child names keeps its default; the last child naming a
      field decides it (a later child overrides an earlier one). */
  lemma {:induction false} MaterialFields(rt: RealText, es: seq<Element>)
    requires MaterialOf(rt, es).Ok?
    ensures var m := MaterialOf(rt, es).value;
      (forall i :: 0 <= i < |es| ==> es[i].name != "diffuse") ==> m.diffuse == Stores.DefaultMaterial.diffuse
    ensures var m := MaterialOf(rt, es).value;
      (forall i :: 0 <= i < |es| ==> es[i].name != "ambient") ==> m.ambient == Stores.DefaultMaterial.ambient
    ensures var m := MaterialOf(rt, es).value;
      (forall i :: 0 <= i < |es| ==> es[i].name != "shininess") ==> m.shininess == Stores.DefaultMaterial.shininess
    ensures var m := MaterialOf(rt, es).value;
      es != [] && es[|es| - 1].name == "diffuse" ==> m.diffuse == Rgb(rt, es[|es| - 1]).value
    ensures var m := MaterialOf(rt, es).value;
      es != [] && es[|es| - 1].name == "shininess" ==> m.shininess == Stof(rt, Value(Some(es[|es| - 1]), "value")).value
    decreases |es|
  {
    if es != [] {
      var front := es[..|es| - 1];
      assert forall i :: 0 <= i < |front| ==> front[i] == es[i];
      MaterialFields(rt, front);
    }
  }

  /** readMaterial: the children visited in document order. */
  method ReadMaterial(rt: RealText, colorNode: Element) returns (r: Result<Stores.Material>)
    ensures r == MaterialOf(rt, colorNode.children)
  {
    var es := colorNode.children;
    var m := Stores.DefaultMaterial;
    var i := 0;
    while i < |es|
      invariant 0 <= i <= |es|
      invariant MaterialOf(rt, es[..i]) == Ok(m)
    {
      assert es[..i + 1][..i] == es[..i];
      var step := MaterialStep(rt, m, es[i]);
      if step.Failure? {
        MaterialFailurePersists(rt, es, i + 1);
        return Failure(step.error);
      }
      m := step.value;
      i := i + 1;
    }
    assert es[..i] == es;
    r := Ok(m);
  }

  lemma {:induction false} MaterialFailurePersists(rt: RealText, es: seq<Element>, i: nat)
    requires i <= |es| && MaterialOf(rt, es[..i]).Failure?
    ensures MaterialOf(rt, es) == MaterialOf(rt, es[..i])
    decreases |es| - i
  {
    if i < |es| {
      assert es[..i + 1][..i] == es[..i];
      MaterialFailurePersists(rt, es, i + 1);
    } else {
      assert es[..i] == es;
    }
  }

  // ----- model references (fourth release) -----

  datatype ModelReference = ModelReference(modelFile: string, textureFile: string, material: Stores.Material)

  /** One child of a `model` element: `texture` names the texture file,
      `color` replaces the whole material by a freshly read one. */
  function ReferenceStep(rt: RealText, ref: ModelReference, c: Element): Result<ModelReference> {
    if c.name == "texture" then Ok(ref.(textureFile := Value(Some(c), "file")))
    else if c.name == "color" then
      match MaterialOf(rt, c.children)
      case Failure(e) => Failure(e)
      case Ok(m) => Ok(ref.(material := m))
    else Ok(ref)
  }

  function ReferenceSteps(rt: RealText, ref: ModelReference, es: seq<Element>): Result<ModelReference> {
    if es == [] then Ok(ref)
    else match ReferenceSteps(rt, ref, es[..|es| - 1])
      case Failure(e) => Failure(e)
      case Ok(r) => ReferenceStep(rt, r, es[|es| - 1])
  }

  /** A `model` element: its file, no texture and the default material
      unless its children say otherwise. */
  function ReferenceOf(rt: RealText, m: Element): (r: Result<ModelReference>)
    ensures r.Ok? ==> r.value.modelFile == Value(Some(m), "file")
  {
    ReferenceStepsKeepFile(rt, ModelReference(Value(Some(m), "file"), "", Stores.DefaultMaterial), m.children);
    ReferenceSteps(rt, ModelReference(Value(Some(m), "file"), "", Stores.DefaultMaterial), m.children)
  }

  lemma {:induction false} ReferenceStepsKeepFile(rt: RealText, ref: ModelReference, es: seq<Element>)
    ensures ReferenceSteps(rt, ref, es).Ok? ==> ReferenceSteps(rt, ref, es).value.modelFile == ref.modelFile
    ensures (forall i :: 0 <= i < |es| ==> es[i].name != "texture" && es[i].name != "color") ==>
      ReferenceSteps(rt, ref, es) == Ok(ref)
    decreases |es|
  {
    if es != [] {
      var front := es[..|es| - 1];
      assert forall i :: 0 <= i < |front| ==> front[i] == es[i];
      ReferenceStepsKeepFile(rt, ref, front);
    }
  }

  /** readModelReferences: the `model` children in document order. */
  function References(rt: RealText, ms: seq<Element>): (r: Result<seq<ModelReference>>)
    ensures r.Ok? ==> |r.value| == |ms|
  {
    if ms == [] then Ok([])
    else match References(rt, ms[..|ms| - 1])
      case Failure(e) => Failure(e)
      case Ok(refs) =>
        match ReferenceOf(rt, ms[|ms| - 1])
        case Failure(e) => Failure(e)
        case Ok(ref) => Ok(refs + [ref])
  }

  // ----- groups -----

  /** A group as configured: the colour (when the release sets one), the
      transforms, the models in the form the release keeps them, and the
      subgroups, all in document order. */
  datatype GroupConfig<M> = GroupConfig(colour: Option<Vec3>, transforms: seq<TransformSpec>, models: seq<M>, subgroups: seq<GroupConfig<M>>)

  /** The transforms and models of a fourth-release group: the last
      `transform` child and the last `models` child win, but every one of
      them is read (and may throw). */
  function GroupBody4(rt: RealText, es: seq<Element>): Result<(seq<TransformSpec>, seq<ModelReference>)> {
    if es == [] then Ok(([], []))
    else match GroupBody4(rt, es[..|es| - 1])
      case Failure(e) => Failure(e)
      case Ok(body) =>
        var c := es[|es| - 1];
        if c.name == "transform" then
          match Transforms(rt, c.children) case Failure(e) => Failure(e) case Ok(ts) => Ok((ts, body.1))
        else if c.name == "models" then
          match References(rt, Named(c.children, "model")) case Failure(e) => Failure(e) case Ok(ms) => Ok((body.0, ms))
        else Ok(body)
  }

  /** A group without a `transform` child has no transforms and one
      without a `models` child has no models; otherwise the last such
      child decides. */
  lemma {:induction false} GroupBody4Fields(rt: RealText, es: seq<Element>)
    requires GroupBody4(rt, es).Ok?
    ensures (forall i :: 0 <= i < |es| ==> es[i].name != "transform") ==> GroupBody4(rt, es).value.0 == []
    ensures (forall i :: 0 <= i < |es| ==> es[i].name != "models") ==> GroupBody4(rt, es).value.1 == []
    ensures es != [] && es[|es| - 1].name == "transform" ==>
      GroupBody4(rt, es).value.0 == Transforms(rt, es[|es| - 1].children).value
    ensures es != [] && es[|es| - 1].name == "models" ==>
      GroupBody4(rt, es).value.1 == References(rt, Named(es[|es| - 1].children, "model")).value
    decreases |es|
  {
    if es != [] {
      var front := es[..|es| - 1];
      assert forall i :: 0 <= i < |front| ==> front[i] == es[i];
      GroupBody4Fields(rt, front);
    }
  }

  /** readGroup (fourth release). Each `group` child makes the reader read
      all `group` children again, so the subgroups are all of them. */
  function Group4(rt: RealText, g: Element): Result<GroupConfig<ModelReference>>
    decreases g, |g.children| + 1
  {
    match GroupBody4(rt, g.children)
    case Failure(e) => Failure(e)
    case Ok(body) =>
      match ChildGroups4(rt, g, |g.children|)
      case Failure(e) => Failure(e)
      case Ok(subs) => Ok(GroupConfig(None, body.0, body.1, subs))
  }

  /** readGroups over the first n children of g. */
  function ChildGroups4(rt: RealText, g: Element, n: nat): Result<seq<GroupConfig<ModelReference>>>
    requires n <= |g.children|
    decreases g, n
  {
    if n == 0 then Ok([])
    else match ChildGroups4(rt, g, n - 1)
      case Failure(e) => Failure(e)
      case Ok(gs) =>
        if g.children[n - 1].name != "group" then Ok(gs)
        else match Group4(rt, g.children[n - 1])
          case Failure(e) => Failure(e)
          case Ok(sub) => Ok(gs + [sub])
  }

  /** A group's subgroups come from its `group` children, one each, in
      document order. */
  lemma {:induction false} ChildGroups4Count(rt: RealText, g: Element, n: nat)
    requires n <= |g.children| && ChildGroups4(rt, g, n).Ok?
    ensures |ChildGroups4(rt, g, n).value| == |Named(g.children[..n], "group")|
    decreases n
  {
    if n > 0 {
      ChildGroups4Count(rt, g, n - 1);
      NamedSnoc(g.children[..n - 1], g.children[n - 1], "group");
      assert g.children[..n - 1] + [g.children[n - 1]] == g.children[..n];
    }
  }

  lemma {:induction false} NamedSnoc(es: seq<Element>, e: Element, name: string)
    ensures Named(es + [e], name) == Named(es, name) + (if e.name == name then [e] else [])
    decreases |es|
  {
    var tail := if e.name == name then [e] else [];
    if es == [] {
      assert es + [e] == [e];
      assert Named([e], name) == tail + Named([], name);
    } else {
      var head := if es[0].name == name then [es[0]] else [];
      var t := es + [e];
      assert t[0] == es[0] && t[1..] == es[1..] + [e];
      NamedSnoc(es[1..], e, name);
      assert Named(t, name) == head + (Named(es[1..], name) + tail);
      assert Named(es, name) == head + Named(es[1..], name);
    }
  }

  // ----- lights, camera and window (fourth release) -----

  /** One `light` element as a load request on the light list. */
  datatype LightLoad =
    | PointAt(position: Vec3)
    | DirectionalTo(direction: Vec3)
    | SpotAt(position: Vec3, direction: Vec3, cutoff: real)

  const DefaultCutoff: real := 30.0

  /** readLights for one `light` element: the type selects the load;
      missing coordinates read as 0 and a missing cutoff as 30. Other types
      load nothing. */
  function LightLoadOf(rt: RealText, l: Element): Option<LightLoad> {
    var node := Some(l);
    var kind := Value(node, "type");
    var pos := Vec3(AsFloat(rt, node, "posx", 0.0), AsFloat(rt, node, "posy", 0.0), AsFloat(rt, node, "posz", 0.0));
    var dir := Vec3(AsFloat(rt, node, "dirx", 0.0), AsFloat(rt, node, "diry", 0.0), AsFloat(rt, node, "dirz", 0.0));
    if kind == "point" then Some(PointAt(pos))
    else if kind == "directional" then Some(DirectionalTo(dir))
    else if kind == "spot" || kind == "spotlight" then Some(SpotAt(pos, dir, AsFloat(rt, node, "cutoff", DefaultCutoff)))
    else None
  }

  /** The light list after one load, as the light caster's loaders leave it. */
  function AfterLoad(lights: seq<Lights.Light>, load: LightLoad): seq<Lights.Light> {
    match load
    case PointAt(p) => if |lights| > Lights.MaxLights then lights else lights + [Lights.PointLight(p)]
    case DirectionalTo(d) => lights + [Lights.DirectionalLight(d)]
    case SpotAt(p, d, c) => lights + [Lights.SpotLight(p, d, c)]
  }

  /** The light list after one `light` element: unchanged when its type
      loads nothing. */
  function AfterLight(rt: RealText, lights: seq<Lights.Light>, l: Element): seq<Lights.Light> {
    match LightLoadOf(rt, l)
    case None => lights
    case Some(load) => AfterLoad(lights, load)
  }

  /** The light list after the `light` children of a `lights` element. */
  function AfterLights(rt: RealText, lights: seq<Lights.Light>, ls: seq<Element>): (r: seq<Lights.Light>)
    ensures lights <= r && |r| <= |lights| + |ls|
  {
    if ls == [] then lights
    else AfterLight(rt, AfterLights(rt, lights, ls[..|ls| - 1]), ls[|ls| - 1])
  }

  /** readLights: each `light` child is handed to the caster in order. */
  method ReadLights(rt: RealText, lightsNode: Element, caster: Lights.LightCaster)
    requires caster.Valid()
    modifies caster
    ensures caster.Valid()
    ensures caster.lights == AfterLights(rt, old(caster.lights), Named(lightsNode.children, "light"))
    ensures caster.appliedCount == old(caster.appliedCount)
  {
    ReadLightList(rt, Named(lightsNode.children, "light"), caster);
  }

  /** The loop of readLights over the `light` children. */
  method ReadLightList(rt: RealText, ls: seq<Element>, caster: Lights.LightCaster)
    requires caster.Valid()
    modifies caster
    ensures caster.Valid() && caster.appliedCount == old(caster.appliedCount)
    ensures caster.lights == AfterLights(rt, old(caster.lights), ls)
  {
    var i := 0;
    while i < |ls|
      invariant 0 <= i <= |ls|
      invariant caster.Valid() && caster.appliedCount == old(caster.appliedCount)
      invariant caster.lights == AfterLights(rt, old(caster.lights), ls[..i])
    {
      assert ls[..i + 1][..i] == ls[..i];
      ReadLight(rt, ls[i], caster);
      i := i + 1;
    }
    assert ls[..i] == ls;
  }

  /** One `light` child handed to the caster's loader for its type. */
  method ReadLight(rt: RealText, l: Element, caster: Lights.LightCaster)
    requires caster.Valid()
    modifies caster
    ensures caster.Valid() && caster.appliedCount == old(caster.appliedCount)
    ensures caster.lights == AfterLight(rt, old(caster.lights), l)
  {
    match LightLoadOf(rt, l) {
      case None =>
      case Some(PointAt(p)) => caster.LoadPoint(p);
      case Some(DirectionalTo(d)) => caster.LoadDirectional(d);
      case Some(SpotAt(p, d, c)) => caster.LoadSpotlight(p, d, c);
    }
  }

  /** readCamera: every coordinate and projection value has a default, so
      a missing camera gives the default placement and projection. */
  function CameraOf(rt: RealText, camera: Option<Element>): (r: (CameraControl.Placement, CameraControl.Projection))
    ensures camera.None? ==> r == (CameraControl.DefaultPlacement, CameraControl.DefaultProjection)
  {
    var projection := Child(camera, "projection");
    (CameraControl.Placement(
       AsVec(rt, Child(camera, "position"), CameraControl.DefaultPlacement.pos),
       AsVec(rt, Child(camera, "lookAt"), CameraControl.DefaultPlacement.target),
       AsVec(rt, Child(camera, "up"), CameraControl.DefaultPlacement.up)),
     CameraControl.Projection(
       AsFloat(rt, projection, "fov", CameraControl.DefaultProjection.fov),
       AsFloat(rt, projection, "near", CameraControl.DefaultProjection.near),
       AsFloat(rt, projection, "far", CameraControl.DefaultProjection.far)))
  }

  const DefaultSize: int := 512

  /** readWindow: width and height, 512 when absent. */
  function WindowOf(window: Option<Element>): (r: (int, int))
    ensures Attr(window, "width").None? ==> r.0 == DefaultSize
    ensures Attr(window, "height").None? ==> r.1 == DefaultSize
  {
    (AsInt(window, "width", DefaultSize), AsInt(window, "height", DefaultSize))
  }

  /** The `world` element of a document; a document that failed to load is
      empty. */
  function WorldOf(doc: Option<Element>): (r: Option<Element>)
    ensures r.Some? ==> r.value.name == "world"
  {
    if doc.Some? && doc.value.name == "world" then doc else None
  }

  /** loadWorld (fourth release): lights (when a `lights` element exists),
      window and camera are written to their global state, and the groups
      are returned. A document that failed to load is only logged: it reads
      as empty. */
  method LoadWorld4(rt: RealText, doc: Option<Element>, caster: Lights.LightCaster, camera: CameraControl.Controller)
    returns (window: (int, int), r: Result<seq<GroupConfig<ModelReference>>>)
    requires caster.Valid() && camera.Valid()
    modifies caster, camera
    ensures caster.Valid() && camera.Valid()
    ensures var lightsNode := Child(WorldOf(doc), "lights");
      caster.lights == if lightsNode.Some? then AfterLights(rt, old(caster.lights), Named(lightsNode.value.children, "light")) else old(caster.lights)
    ensures window == WindowOf(Child(WorldOf(doc), "window"))
    ensures var (p, proj) := CameraOf(rt, Child(WorldOf(doc), "camera"));
      camera.initialPlacement == camera.currentPlacement == p && camera.initialProjection == camera.currentProjection == proj
    ensures camera.behaviour == old(camera.behaviour)
    ensures r == if WorldOf(doc).None? then Ok([]) else ChildGroups4(rt, WorldOf(doc).value, |WorldOf(doc).value.children|)
  {
    var world := WorldOf(doc);
    var lightsNode := Child(world, "lights");
    if lightsNode.Some? {
      ReadLights(rt, lightsNode.value, caster);
    }
    window := WindowOf(Child(world, "window"));
    var (p, proj) := CameraOf(rt, Child(world, "camera"));
    camera.Configure(p, proj);
    r := if world.None? then Ok([]) else ChildGroups4(rt, world.value, |world.value.children|);
  }

  /** A document that failed to load gives no groups, the default camera
      and the default window. */
  lemma UnloadedWorld4(rt: RealText)
    ensures WorldOf(None).None?
    ensures CameraOf(rt, Child(WorldOf(None), "camera")) == (CameraControl.DefaultPlacement, CameraControl.DefaultProjection)
    ensures WindowOf(Child(WorldOf(None), "window")) == (DefaultSize, DefaultSize)
  {
  }

  // ----- the files a document asks for (third and fourth releases) -----

  datatype FileKind = ModelFiles | TextureFiles

  /** The files an element itself names: a `model` element with a `file`
      attribute names a model file, and its `texture` children with a
      `file` attribute name texture files. */
  function OwnFiles(e: Element, kind: FileKind): set<string> {
    if e.name != "model" then {}
    else if kind == ModelFiles then (if "file" in e.attrs then {e.attrs["file"]} else {})
    else set c | c in e.children && c.name == "texture" && "file" in c.attrs :: c.attrs["file"]
  }

  /** getUniqueModelFilenames / getUniqueTextureFilenames: the names
      selected by `//model[@file]` and `//model/texture[@file]` anywhere in
      the document, without duplicates. The source hands them on in the
      order of an unordered set, so only the set is kept. */
  function FilesIn(e: Element, kind: FileKind): set<string>
    decreases e, |e.children| + 1
  {
    OwnFiles(e, kind) + FilesUnder(e, |e.children|, kind)
  }

  function FilesUnder(e: Element, n: nat, kind: FileKind): set<string>
    requires n <= |e.children|
    decreases e, n
  {
    if n == 0 then {} else FilesUnder(e, n - 1, kind) + FilesIn(e.children[n - 1], kind)
  }

  lemma {:induction false} FilesOfChild(e: Element, n: nat, i: nat, kind: FileKind)
    requires i < n <= |e.children|
    ensures FilesIn(e.children[i], kind) <= FilesUnder(e, n, kind)
    decreases n
  {
    if i < n - 1 {
      FilesOfChild(e, n - 1, i, kind);
    }
  }

  lemma ChildFilesInParent(e: Element, c: Element, kind: FileKind)
    requires c in e.children
    ensures FilesIn(c, kind) <= FilesIn(e, kind)
  {
    var i :| 0 <= i < |e.children| && e.children[i] == c;
    FilesOfChild(e, |e.children|, i, kind);
  }

  /** Every model and texture a configured group refers to is among the
      given files, or is the empty name of a missing attribute. */
  predicate RefersWithin(gc: GroupConfig<ModelReference>, models: set<string>, textures: set<string>) {
    (forall r :: r in gc.models ==>
      (r.modelFile == "" || r.modelFile in models) && (r.textureFile == "" || r.textureFile in textures))
    && forall sub :: sub in gc.subgroups ==> RefersWithin(sub, models, textures)
  }

  /** The texture of a reference is the one it started with or the file of
      one of the `texture` children. */
  lemma {:induction false} ReferenceStepsTexture(rt: RealText, ref: ModelReference, es: seq<Element>)
    requires ReferenceSteps(rt, ref, es).Ok?
    ensures var t := ReferenceSteps(rt, ref, es).value.textureFile;
      t == ref.textureFile || exists c :: c in es && c.name == "texture" && t == Value(Some(c), "file")
    decreases |es|
  {
    if es != [] {
      var front := es[..|es| - 1];
      ReferenceStepsTexture(rt, ref, front);
      var t := ReferenceSteps(rt, ref, front).value.textureFile;
      if t != ref.textureFile && es[|es| - 1].name != "texture" {
        var c :| c in front && c.name == "texture" && t == Value(Some(c), "file");
        assert c in es;
      }
    }
  }

  lemma {:induction false} ReferencesWithin(rt: RealText, ms: seq<Element>, models: set<string>, textures: set<string>)
    requires References(rt, ms).Ok?
    requires forall i :: 0 <= i < |ms| ==>
      ms[i].name == "model" && FilesIn(ms[i], ModelFiles) <= models && FilesIn(ms[i], TextureFiles) <= textures
    ensures forall r :: r in References(rt, ms).value ==>
      (r.modelFile == "" || r.modelFile in models) && (r.textureFile == "" || r.textureFile in textures)
    decreases |ms|
  {
    if ms != [] {
      ReferencesWithin(rt, ms[..|ms| - 1], models, textures);
      var m := ms[|ms| - 1];
      var start := ModelReference(Value(Some(m), "file"), "", Stores.DefaultMaterial);
      ReferenceStepsTexture(rt, start, m.children);
      var ref := ReferenceSteps(rt, start, m.children).value;
      ReferenceStepsKeepFile(rt, start, m.children);
      assert ref.modelFile == "" || ref.modelFile in OwnFiles(m, ModelFiles);
      if ref.textureFile != "" {
        var c :| c in m.children && c.name == "texture" && ref.textureFile == Value(Some(c), "file");
        assert ref.textureFile in OwnFiles(m, TextureFiles);
      }
    }
  }

  lemma {:induction false} GroupBody4Within(rt: RealText, es: seq<Element>, models: set<string>, textures: set<string>)
    requires GroupBody4(rt, es).Ok?
    requires forall i :: 0 <= i < |es| ==> FilesIn(es[i], ModelFiles) <= models && FilesIn(es[i], TextureFiles) <= textures
    ensures forall r :: r in GroupBody4(rt, es).value.1 ==>
      (r.modelFile == "" || r.modelFile in models) && (r.textureFile == "" || r.textureFile in textures)
    decreases |es|
  {
    if es != [] {
      GroupBody4Within(rt, es[..|es| - 1], models, textures);
      var c := es[|es| - 1];
      if c.name == "models" {
        var ms := Named(c.children, "model");
        forall i | 0 <= i < |ms|
          ensures FilesIn(ms[i], ModelFiles) <= models && FilesIn(ms[i], TextureFiles) <= textures
        {
          ChildFilesInParent(c, ms[i], ModelFiles);
          ChildFilesInParent(c, ms[i], TextureFiles);
        }
        ReferencesWithin(rt, ms, models, textures);
      }
    }
  }

  /** Everything a group read by the fourth release refers to is named by
      its own subtree, so loading the document's unique model and texture
      files beforehand (importModels, importTextures) covers every
      reference, except a `model` or `texture` without a `file`. */
  lemma {:induction false} Group4Within(rt: RealText, g: Element, models: set<string>, textures: set<string>)
    requires Group4(rt, g).Ok?
    requires FilesIn(g, ModelFiles) <= models && FilesIn(g, TextureFiles) <= textures
    ensures RefersWithin(Group4(rt, g).value, models, textures)
    decreases g, |g.children| + 1
  {
    forall i | 0 <= i < |g.children|
      ensures FilesIn(g.children[i], ModelFiles) <= models && FilesIn(g.children[i], TextureFiles) <= textures
    {
      FilesOfChild(g, |g.children|, i, ModelFiles);
      FilesOfChild(g, |g.children|, i, TextureFiles);
    }
    GroupBody4Within(rt, g.children, models, textures);
    ChildGroups4Within(rt, g, |g.children|, models, textures);
  }

  lemma {:induction false} ChildGroups4Within(rt: RealText, g: Element, n: nat, models: set<string>, textures: set<string>)
    requires n <= |g.children| && ChildGroups4(rt, g, n).Ok?
    requires forall i :: 0 <= i < |g.children| ==>
      FilesIn(g.children[i], ModelFiles) <= models && FilesIn(g.children[i], TextureFiles) <= textures
    ensures forall sub :: sub in ChildGroups4(rt, g, n).value ==> RefersWithin(sub, models, textures)
    decreases g, n
  {
    if n > 0 {
      ChildGroups4Within(rt, g, n - 1, models, textures);
      if g.children[n - 1].name == "group" {
        Group4Within(rt, g.children[n - 1], models, textures);
      }
    }
  }

  /** The groups of a world refer only to files the document names. */
  lemma WorldGroups4Within(rt: RealText, world: Element)
    requires ChildGroups4(rt, world, |world.children|).Ok?
    ensures forall sub :: sub in ChildGroups4(rt, world, |world.children|).value ==>
      RefersWithin(sub, FilesIn(world, ModelFiles), FilesIn(world, TextureFiles))
  {
    forall i | 0 <= i < |world.children|
      ensures FilesIn(world.children[i], ModelFiles) <= FilesIn(world, ModelFiles)
      ensures FilesIn(world.children[i], TextureFiles) <= FilesIn(world, TextureFiles)
    {
      FilesOfChild(world, |world.children|, i, ModelFiles);
      FilesOfChild(world, |world.children|, i, TextureFiles);
    }
    ChildGroups4Within(rt, world, |world.children|, FilesIn(world, ModelFiles), FilesIn(world, TextureFiles));
  }

  // ----- the third release -----

  /** The camera of the second and third releases: a placement and a
      projection. */
  datatype CameraSettings = CameraSettings(view: ScalarCamera.CameraConfig, fov: real, near: real, far: real)

  /** readColour: r, g and b through stof. */
  function Colour3(rt: RealText, c: Element): Result<Vec3> {
    StofVec(rt, Some(c), "r", "g", "b")
  }

  /** readModels: the `file` of every `model` child, "" when absent. */
  function ModelNames(ms: seq<Element>): (r: seq<string>)
    ensures |r| == |ms| && forall i :: 0 <= i < |ms| ==> r[i] == Value(Some(ms[i]), "file")
  {
    if ms == [] then [] else ModelNames(ms[..|ms| - 1]) + [Value(Some(ms[|ms| - 1]), "file")]
  }

  /** Colour, transforms and model names of a third-release group: the
      last child of each kind wins, and every one is read. */
  function GroupBody3(rt: RealText, es: seq<Element>): Result<(Option<Vec3>, seq<TransformSpec>, seq<string>)> {
    if es == [] then Ok((None, [], []))
    else match GroupBody3(rt, es[..|es| - 1])
      case Failure(e) => Failure(e)
      case Ok(body) =>
        var c := es[|es| - 1];
        if c.name == "colour" then
          match Colour3(rt, c) case Failure(e) => Failure(e) case Ok(v) => Ok((Some(v), body.1, body.2))
        else if c.name == "transform" then
          match Transforms(rt, c.children) case Failure(e) => Failure(e) case Ok(ts) => Ok((body.0, ts, body.2))
        else if c.name == "models" then
          Ok((body.0, body.1, ModelNames(Named(c.children, "model"))))
        else Ok(body)
  }

  /** readGroup (third release); as in the fourth release, the subgroups
      are all `group` children. */
  function Group3(rt: RealText, g: Element): Result<GroupConfig<string>>
    decreases g, |g.children| + 1
  {
    match GroupBody3(rt, g.children)
    case Failure(e) => Failure(e)
    case Ok(body) =>
      match ChildGroups3(rt, g, |g.children|)
      case Failure(e) => Failure(e)
      case Ok(subs) => Ok(GroupConfig(body.0, body.1, body.2, subs))
  }

  function ChildGroups3(rt: RealText, g: Element, n: nat): Result<seq<GroupConfig<string>>>
    requires n <= |g.children|
    decreases g, n
  {
    if n == 0 then Ok([])
    else match ChildGroups3(rt, g, n - 1)
      case Failure(e) => Failure(e)
      case Ok(gs) =>
        if g.children[n - 1].name != "group" then Ok(gs)
        else match Group3(rt, g.children[n - 1])
          case Failure(e) => Failure(e)
          case Ok(sub) => Ok(gs + [sub])
  }

  /** A group without a `colour` child has no colour; otherwise the colour
      is that of its last `colour` child. */
  lemma {:induction false} GroupBody3Colour(rt: RealText, es: seq<Element>)
    requires GroupBody3(rt, es).Ok?
    ensures var colour := GroupBody3(rt, es).value.0;
      (colour.None? <==> forall i :: 0 <= i < |es| ==> es[i].name != "colour")
    ensures es != [] && es[|es| - 1].name == "colour" ==> GroupBody3(rt, es).value.0 == Some(Colour3(rt, es[|es| - 1]).value)
    decreases |es|
  {
    if es != [] {
      var front := es[..|es| - 1];
      assert forall i :: 0 <= i < |front| ==> front[i] == es[i];
      GroupBody3Colour(rt, front);
    }
  }

  /** Three attributes with non-empty text. */
  predicate HasAll(node: Option<Element>, kx: string, ky: string, kz: string) {
    Value(node, kx) != "" && Value(node, ky) != "" && Value(node, kz) != ""
  }

  /** The twelve attributes readCamera converts. */
  predicate CameraComplete(camera: Option<Element>) {
    HasAll(Child(camera, "position"), "x", "y", "z") && HasAll(Child(camera, "lookAt"), "x", "y", "z")
    && HasAll(Child(camera, "up"), "x", "y", "z") && HasAll(Child(camera, "projection"), "fov", "near", "far")
  }

  /** readCamera (third release): no defaults. */
  function Camera3(rt: RealText, camera: Option<Element>): Result<CameraSettings> {
    var projection := Child(camera, "projection");
    match StofVec(rt, Child(camera, "position"), "x", "y", "z")
    case Failure(e) => Failure(e)
    case Ok(position) =>
      match StofVec(rt, Child(camera, "lookAt"), "x", "y", "z")
      case Failure(e) => Failure(e)
      case Ok(lookAt) =>
        match StofVec(rt, Child(camera, "up"), "x", "y", "z")
        case Failure(e) => Failure(e)
        case Ok(up) =>
          match StofVec(rt, projection, "fov", "near", "far")
          case Failure(e) => Failure(e)
          case Ok(p) => Ok(CameraSettings(ScalarCamera.CameraConfig(position, lookAt, up), p.x, p.y, p.z))
  }

  /** A missing camera, or one missing any of its twelve attributes, makes
      stof throw. */
  lemma Camera3NeedsAll(rt: RealText, camera: Option<Element>)
    ensures !CameraComplete(camera) ==> Camera3(rt, camera).Failure?
    ensures camera.None? ==> !CameraComplete(camera)
  {
  }

  /** readWindow (third release): stoi on width and height. */
  function Window3(window: Option<Element>): (r: Result<(int, int)>)
    ensures window.None? ==> r.Failure?
  {
    match Stoi(Value(window, "width"))
    case Failure(e) => Failure(e)
    case Ok(w) =>
      match Stoi(Value(window, "height"))
      case Failure(e) => Failure(e)
      case Ok(h) => Ok((w, h))
  }

  datatype World3 = World3(window: (int, int), camera: CameraSettings,
                           modelStorage: map<string, Stores.VboModel>, groups: seq<GroupConfig<string>>, worldUp: Vec3)

  /** The names getUniqueModelFilenames selects; none for a document that
      failed to load. */
  function DocModelFiles(doc: Option<Element>): set<string> {
    if doc.Some? then FilesIn(doc.value, ModelFiles) else {}
  }

  /** readGroups on the world node; none without one. */
  function Groups3(rt: RealText, world: Option<Element>): Result<seq<GroupConfig<string>>> {
    if world.None? then Ok([]) else ChildGroups3(rt, world.value, |world.value.children|)
  }

  /** loadWorld (third release): window, camera, then the model storage
      built from the unique model file names, then the groups; the
      animated translations' world up becomes the camera's up. A document
      that failed to load is only logged, and then reading the window
      throws. The names come out of an unordered set: `order` is the order
      its iteration visits them in, which is left open. `load` stands for
      constructing a Model from a file (loadModelVertices), which throws
      for a file that cannot be opened or has a malformed `v` line. */
  function LoadWorld3(rt: RealText, doc: Option<Element>, load: string -> Result<seq<real>>, order: seq<string>): (r: Result<World3>)
    requires forall f :: f in order <==> f in DocModelFiles(doc)
    ensures r.Ok? ==> r.value.worldUp == r.value.camera.view.up
    ensures doc.None? ==> r.Failure?
  {
    var world := WorldOf(doc);
    match Window3(Child(world, "window"))
    case Failure(e) => Failure(e)
    case Ok(window) =>
      match Camera3(rt, Child(world, "camera"))
      case Failure(e) => Failure(e)
      case Ok(camera) =>
        match Stores.LoadAll(map[], order, load)
        case Failure(e) => Failure(e)
        case Ok(storage) =>
          match Groups3(rt, world)
          case Failure(e) => Failure(e)
          case Ok(gs) => Ok(World3(window, camera, storage, gs, camera.view.up))
  }

  /** The world loads exactly when the window, the camera, every model file
      the document names and the groups can be read, whatever order the
      names are visited in; the storage then holds each of those files'
      vertices under its name. */
  lemma LoadWorld3Outcome(rt: RealText, doc: Option<Element>, load: string -> Result<seq<real>>, order: seq<string>)
    requires forall f :: f in order <==> f in DocModelFiles(doc)
    ensures var world := WorldOf(doc);
      LoadWorld3(rt, doc, load, order).Ok? <==>
        Window3(Child(world, "window")).Ok? && Camera3(rt, Child(world, "camera")).Ok?
        && (forall f :: f in DocModelFiles(doc) ==> load(f).Ok?) && Groups3(rt, world).Ok?
    ensures LoadWorld3(rt, doc, load, order).Ok? ==>
      var storage := LoadWorld3(rt, doc, load, order).value.modelStorage;
      storage.Keys == DocModelFiles(doc)
      && forall f :: f in storage ==> storage[f] == Stores.VboModel(f, load(f).value, 0, 0)
  {
    var files := DocModelFiles(doc);
    var loaded := Stores.LoadAll(map[], order, load);
    LoadAllOfSet(order, files, load);
    assert LoadWorld3(rt, doc, load, order).Ok? ==> loaded.Ok? && LoadWorld3(rt, doc, load, order).value.modelStorage == loaded.value;
  }

  /** Loading an enumeration of a set of names into an empty store: the
      outcome depends only on the set. */
  lemma LoadAllOfSet(order: seq<string>, files: set<string>, load: string -> Result<seq<real>>)
    requires forall f :: f in order <==> f in files
    ensures Stores.LoadAll(map[], order, load).Ok? <==> forall f :: f in files ==> load(f).Ok?
    ensures Stores.LoadAll(map[], order, load).Ok? ==>
      var storage := Stores.LoadAll(map[], order, load).value;
      storage.Keys == files && forall f :: f in storage ==> storage[f] == Stores.VboModel(f, load(f).value, 0, 0)
  {
    Stores.LoadAllOutcome(map[], order, load);
    assert (set f | f in order) == files;
  }

  // ----- the second release -----

  /** The defaults of the second release's Camera. */
  const DefaultSecondCamera: CameraSettings :=
    CameraSettings(ScalarCamera.CameraConfig(Origin, Origin, Vec3(0.0, 1.0, 0.0)), 60.0, 1.0, 1000.0)

  const White: Vec3 := Vec3(1.0, 1.0, 1.0)

  /** getFloatAttr on x, y and z with one default. */
  function QueryVec(rt: RealText, e: Element, def: real): Vec3 {
    Vec3(QueryFloat(rt, Some(e), "x", def), QueryFloat(rt, Some(e), "y", def), QueryFloat(rt, Some(e), "z", def))
  }

  /** One child of the first `transform` element: translate and rotate
      default to 0, scale to 1; other names give nothing. */
  function Transform2(rt: RealText, c: Element): (r: Option<TransformSpec>)
    ensures r.Some? <==> c.name in ["translate", "rotate", "scale"]
    ensures r.Some? ==> r.value.Translate? || r.value.Rotate? || r.value.Scale?
  {
    if c.name == "translate" then Some(Translate(QueryVec(rt, c, 0.0)))
    else if c.name == "rotate" then Some(Rotate(QueryFloat(rt, Some(c), "angle", 0.0), QueryVec(rt, c, 0.0)))
    else if c.name == "scale" then Some(Scale(QueryVec(rt, c, 1.0)))
    else None
  }

  function Transforms2(rt: RealText, es: seq<Element>): (r: seq<TransformSpec>)
    ensures |r| <= |es|
  {
    if es == [] then []
    else Transforms2(rt, es[..|es| - 1]) + match Transform2(rt, es[|es| - 1]) case None => [] case Some(t) => [t]
  }

  /** A transform child without attributes: the identity translation,
      rotation and scaling. */
  lemma Transform2Defaults(rt: RealText, c: Element)
    requires c.attrs == map[]
    ensures c.name == "translate" ==> Transform2(rt, c) == Some(Translate(Origin))
    ensures c.name == "rotate" ==> Transform2(rt, c) == Some(Rotate(0.0, Origin))
    ensures c.name == "scale" ==> Transform2(rt, c) == Some(Scale(Vec3(1.0, 1.0, 1.0)))
  {
  }

  /** The files of the `model` children that have a `file` attribute. */
  function ModelFiles2(ms: seq<Element>): (r: seq<string>)
    ensures |r| <= |ms|
    ensures forall f :: f in r ==> exists m :: m in ms && "file" in m.attrs && f == m.attrs["file"]
  {
    if ms == [] then []
    else
      var m := ms[|ms| - 1];
      ModelFiles2(ms[..|ms| - 1]) + if "file" in m.attrs then [m.attrs["file"]] else []
  }

  /** modelFiles::load of each file in turn. `disk` gives a model file's
      lines, or None when it cannot be opened (that file then loads as an
      empty model); a field stof rejects throws, and the exception ends
      the parse. */
  function Models2(rt: RealText, disk: string -> Option<seq<string>>, files: seq<string>): (r: Result<seq<seq<Vec3>>>)
    ensures r.Ok? <==> forall i :: 0 <= i < |files| ==> CsvVertices.VerticesOf(rt, disk(files[i])).Ok?
    ensures r.Ok? ==> |r.value| == |files|
    ensures r.Ok? ==> forall i :: 0 <= i < |files| ==> r.value[i] == CsvVertices.VerticesOf(rt, disk(files[i])).value
  {
    if files == [] then Ok([])
    else
      match CsvVertices.VerticesOf(rt, disk(files[0]))
      case Failure(e) => Failure(e)
      case Ok(vs) =>
        match Models2(rt, disk, files[1..])
        case Failure(e) => Failure(e)
        case Ok(rest) => Ok([vs] + rest)
  }

  /** The files the first `models` child of a group names. */
  function GroupFiles2(children: seq<Element>): seq<string> {
    match FirstNamed(children, "models") case None => [] case Some(m) => ModelFiles2(Named(m.children, "model"))
  }

  /** What parseGroup reads before the subgroups: the first `colour`,
      `transform` and `models` children only, the models loaded with
      modelFiles::load. */
  function GroupBody2(rt: RealText, disk: string -> Option<seq<string>>, children: seq<Element>)
    : Result<(Vec3, seq<TransformSpec>, seq<seq<Vec3>>)>
  {
    var colour := match FirstNamed(children, "colour")
      case None => White
      case Some(c) => Vec3(QueryFloat(rt, Some(c), "r", 1.0), QueryFloat(rt, Some(c), "g", 1.0), QueryFloat(rt, Some(c), "b", 1.0));
    var transforms := match FirstNamed(children, "transform") case None => [] case Some(t) => Transforms2(rt, t.children);
    match Models2(rt, disk, GroupFiles2(children))
    case Failure(e) => Failure(e)
    case Ok(models) => Ok((colour, transforms, models))
  }

  /** parseGroup: the group's body, then its subgroups. */
  function Group2(rt: RealText, disk: string -> Option<seq<string>>, g: Element): Result<GroupConfig<seq<Vec3>>>
    decreases g, |g.children| + 1
  {
    match GroupBody2(rt, disk, g.children)
    case Failure(e) => Failure(e)
    case Ok(body) =>
      match ChildGroups2(rt, disk, g, |g.children|)
      case Failure(e) => Failure(e)
      case Ok(subs) => Ok(GroupConfig(Some(body.0), body.1, body.2, subs))
  }

  /** parseGroups over the first n children of g. */
  function ChildGroups2(rt: RealText, disk: string -> Option<seq<string>>, g: Element, n: nat): (r: Result<seq<GroupConfig<seq<Vec3>>>>)
    requires n <= |g.children|
    ensures r.Ok? ==> |r.value| == |Named(g.children[..n], "group")|
    decreases g, n
  {
    if n == 0 then Ok([])
    else
      NamedSnoc(g.children[..n - 1], g.children[n - 1], "group");
      assert g.children[..n - 1] + [g.children[n - 1]] == g.children[..n];
      match ChildGroups2(rt, disk, g, n - 1)
      case Failure(e) => Failure(e)
      case Ok(front) =>
        if g.children[n - 1].name != "group" then Ok(front)
        else
          match Group2(rt, disk, g.children[n - 1])
          case Failure(e) => Failure(e)
          case Ok(last) => Ok(front + [last])
  }

  /** Every group child among the first n parsed. */
  lemma {:induction false} ChildGroups2NeedsAll(rt: RealText, disk: string -> Option<seq<string>>, g: Element, n: nat)
    requires n <= |g.children|
    ensures ChildGroups2(rt, disk, g, n).Ok? ==>
      forall i :: 0 <= i < n && g.children[i].name == "group" ==> Group2(rt, disk, g.children[i]).Ok?
    decreases n
  {
    if n > 0 {
      ChildGroups2NeedsAll(rt, disk, g, n - 1);
    }
  }

  /** A group parses only when every model file its `models` child names
      loads and every subgroup parses: one malformed model file anywhere
      in the tree makes the whole parse throw. */
  lemma Group2NeedsModels(rt: RealText, disk: string -> Option<seq<string>>, g: Element)
    ensures Group2(rt, disk, g).Ok? ==>
      forall f :: f in GroupFiles2(g.children) ==> CsvVertices.VerticesOf(rt, disk(f)).Ok?
    ensures Group2(rt, disk, g).Ok? ==>
      forall i :: 0 <= i < |g.children| && g.children[i].name == "group" ==> Group2(rt, disk, g.children[i]).Ok?
  {
    ChildGroups2NeedsAll(rt, disk, g, |g.children|);
  }

  lemma {:induction false} FirstNamedAppend(es: seq<Element>, more: seq<Element>, name: string)
    requires FirstNamed(es, name).Some?
    ensures FirstNamed(es + more, name) == FirstNamed(es, name)
    decreases |es|
  {
    if es[0].name != name {
      assert (es + more)[1..] == es[1..] + more;
      FirstNamedAppend(es[1..], more, name);
    }
  }

  /** Only the first child of each kind counts: children added after a
      `colour`, a `transform` and a `models` child leave the group's
      colour, transforms and models, and the files it loads, as they were. */
  lemma Group2FirstOnly(rt: RealText, disk: string -> Option<seq<string>>, children: seq<Element>, more: seq<Element>)
    requires FirstNamed(children, "colour").Some?
    requires FirstNamed(children, "transform").Some?
    requires FirstNamed(children, "models").Some?
    ensures GroupBody2(rt, disk, children + more) == GroupBody2(rt, disk, children)
  {
    FirstNamedAppend(children, more, "colour");
    FirstNamedAppend(children, more, "transform");
    FirstNamedAppend(children, more, "models");
  }

  /** A group without a colour child is white. */
  lemma Group2White(rt: RealText, disk: string -> Option<seq<string>>, g: Element)
    requires forall i :: 0 <= i < |g.children| ==> g.children[i].name != "colour"
    ensures Group2(rt, disk, g).Ok? ==> Group2(rt, disk, g).value.colour == Some(White)
  {
  }

  /** parseWindow: 512 by 512 unless a `window` element says otherwise;
      a missing attribute also gives 512. */
  function Window2(world: Element): (r: (int, int))
    ensures var w := Child(Some(world), "window");
      (Attr(w, "width").None? ==> r.0 == DefaultSize) && (Attr(w, "height").None? ==> r.1 == DefaultSize)
  {
    var w := Child(Some(world), "window");
    if w.None? then (DefaultSize, DefaultSize)
    else (QueryInt(w, "width", DefaultSize), QueryInt(w, "height", DefaultSize))
  }

  /** parseCamera: a present `position`, `lookAt` or `up` element replaces
      the default, reading a missing coordinate as 0; a present
      `projection` reads 60, 1 and 1000 for missing values. */
  function Camera2(rt: RealText, world: Element): (r: CameraSettings)
    ensures Child(Some(world), "camera").None? ==> r == DefaultSecondCamera
    ensures var c := Child(Some(world), "camera");
      (forall k :: k in ["fov", "near", "far"] ==> Attr(Child(c, "projection"), k).None?) ==>
        r.fov == 60.0 && r.near == 1.0 && r.far == 1000.0
  {
    var c := Child(Some(world), "camera");
    if c.None? then DefaultSecondCamera
    else
      var d := DefaultSecondCamera;
      var position := Child(c, "position");
      var lookAt := Child(c, "lookAt");
      var up := Child(c, "up");
      var projection := Child(c, "projection");
      CameraSettings(
        ScalarCamera.CameraConfig(
          if position.None? then d.view.position else QueryVec(rt, position.value, 0.0),
          if lookAt.None? then d.view.lookAt else QueryVec(rt, lookAt.value, 0.0),
          if up.None? then d.view.up else QueryVec(rt, up.value, 0.0)),
        QueryFloat(rt, projection, "fov", d.fov),
        QueryFloat(rt, projection, "near", d.near),
        QueryFloat(rt, projection, "far", d.far))
  }

  /** An `up` element without attributes reads as the zero vector, not as
      the default up. */
  lemma Camera2EmptyUp(rt: RealText, world: Element)
    requires var c := Child(Some(world), "camera"); c.Some? && Child(c, "up").Some? && Child(c, "up").value.attrs == map[]
    ensures Camera2(rt, world).view.up == Origin
  {
  }

  datatype World2 = World2(window: (int, int), camera: CameraSettings, groups: seq<GroupConfig<seq<Vec3>>>)

  /** ConfigParser::loadFromFile: a document that failed to load, or one
      without a `world` element, throws; so does a model file stof cannot
      read while the groups are parsed. */
  function LoadFromFile(rt: RealText, path: string, doc: Option<Element>, disk: string -> Option<seq<string>>): (r: Result<World2>)
    ensures doc.None? ==> r == Failure("Failed to load XML file: " + path)
    ensures doc.Some? && doc.value.name != "world" ==> r == Failure("Missing <world> element")
    ensures r.Ok? ==> |r.value.groups| == |Named(doc.value.children, "group")|
  {
    if doc.None? then Failure("Failed to load XML file: " + path)
    else if doc.value.name != "world" then Failure("Missing <world> element")
    else
      var world := doc.value;
      assert world.children[..|world.children|] == world.children;
      match ChildGroups2(rt, disk, world, |world.children|)
      case Failure(e) => Failure(e)
      case Ok(gs) => Ok(World2(Window2(world), Camera2(rt, world), gs))
  }

  /** The world loads only when every top-level group parses, so (by
      Group2NeedsModels) only when every model file of every group loads. */
  lemma LoadFromFileNeedsModels(rt: RealText, path: string, doc: Option<Element>, disk: string -> Option<seq<string>>)
    ensures LoadFromFile(rt, path, doc, disk).Ok? ==>
      forall i :: 0 <= i < |doc.value.children| && doc.value.children[i].name == "group" ==>
        Group2(rt, disk, doc.value.children[i]).Ok?
  {
    if doc.Some? {
      ChildGroups2NeedsAll(rt, disk, doc.value, |doc.value.children|);
    }
  }
}
