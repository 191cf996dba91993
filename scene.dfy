/** Perspective projection and wireframe rendering of model instances (src/scene.rs).
    The drawing surface that the scene renders onto, `Canvas` with its `draw_wireframe`, is
    defined elsewhere in the program; here it is a canvas of a given size that records each
    wireframe triangle it is asked to draw. */
module SceneRender {
  import opened Numeric
  import opened Math

  /** The viewport: `width` by `height` world units at distance `d` from the camera. */
  datatype Scene = Scene(width: nat, height: nat, d: real)

  /** A triangle of a model: three indices into the model's vertex list and a colour. */
  datatype Triangle = Triangle(v: (nat, nat, nat), color: u32)

  /** A mesh: vertices in model space and triangles over them. */
  datatype Model = Model(vertices: seq<Vertex>, triangles: seq<Triangle>)

  /** A model placed in the world at `position`. */
  datatype Instance = Instance(model: Model, position: Vertex)

  /** One call of `draw_wireframe`: three projected corners and a colour. */
  datatype Wireframe = Wireframe(p0: Point2, p1: Point2, p2: Point2, color: u32)

  /** The drawing surface: its size in pixels and the wireframes drawn on it so far, in order. */
  class Canvas {
    const width: nat
    const height: nat
    var drawn: seq<Wireframe>

    constructor (width: nat, height: nat)
      ensures this.width == width && this.height == height && drawn == []
    {
      this.width := width;
      this.height := height;
      drawn := [];
    }

    /** `draw_wireframe`: records the triangle `p0 p1 p2` in `color`. */
    method DrawWireframe(p0: Point2, p1: Point2, p2: Point2, color: u32)
      modifies this
      ensures drawn == old(drawn) + [Wireframe(p0, p1, p2, color)]
    {
      drawn := drawn + [Wireframe(p0, p1, p2, color)];
    }
  }

  /** `Scene::new`. */
  function NewScene(width: nat, height: nat, d: real): (s: Scene)
    ensures s.width == width && s.height == height && s.d == d
  {
    Scene(width, height, d)
  }

  /** `Triangle::new` stores its corner indices and colour unchanged. */
  function NewTriangle(v: (nat, nat, nat), color: u32): (t: Triangle)
    ensures t.v == v && t.color == color
  {
    Triangle(v, color)
  }

  /** `Model::new` stores its vertex and triangle lists unchanged. */
  function NewModel(vertices: seq<Vertex>, triangles: seq<Triangle>): (m: Model)
    ensures m.vertices == vertices && m.triangles == triangles
  {
    Model(vertices, triangles)
  }

  /** `Instance::new` stores its model and position unchanged. */
  function NewInstance(model: Model, position: Vertex): (i: Instance)
    ensures i.model == model && i.position == position
  {
    Instance(model, position)
  }

  /** `x * to as f32 / from as f32`: a coordinate rescaled from a span of `from` to one of `to`. */
  function Rescale(x: real, to: nat, from: nat): real
    requires from > 0
  {
    x * to as real / from as real
  }

  /** `viewport_to_canvas`'s arithmetic keeps the order of its inputs and sends 0 to 0. */
  lemma RescaleOrder(x: real, x': real, to: nat, from: nat)
    requires from > 0
    ensures Rescale(0.0, to, from) == 0.0
    ensures x <= x' ==> Rescale(x, to, from) <= Rescale(x', to, from)
  {
    if x <= x' {
      assert x * to as real <= x' * to as real;
    }
  }

  /** A point within half the viewport of the centre is rescaled to within half the canvas. */
  lemma RescaleWithin(x: real, to: nat, from: nat)
    requires from > 0 && -(from as real) / 2.0 <= x <= from as real / 2.0
    ensures -(to as real) / 2.0 <= Rescale(x, to, from) <= to as real / 2.0
  {
    var t, f := to as real, from as real;
    var p := x * t;
    assert -(f * t) / 2.0 <= p <= f * t / 2.0 by {
      assert x * t <= f / 2.0 * t;
      assert -(f / 2.0) * t <= x * t;
    }
    assert p / f <= (f * t / 2.0) / f;
    assert (-(f * t) / 2.0) / f <= p / f;
    assert (f * t / 2.0) / f == t / 2.0;
  }

  /** One coordinate of `viewport_to_canvas`: `(x * to as f32 / from as f32) as i32`. For an
      empty viewport span (`from == 0`) the division gives an infinity with the sign of
      `x * to`, or NaN when that is 0, and the cast saturates the infinities and sends NaN to 0. */
  function ScaleCast(x: real, to: nat, from: nat): (n: int)
    ensures -0x8000_0000 <= n < 0x8000_0000
  {
    if from > 0 then SatI32(Rescale(x, to, from))
    else if 0.0 < x * to as real then 0x7FFF_FFFF
    else if x * to as real < 0.0 then -0x8000_0000
    else 0
  }

  /** Each coordinate's scale-and-cast sends 0 to 0 and keeps the order of its inputs, for an
      empty viewport span as well. */
  lemma ScaleCastOrder(x: real, x': real, to: nat, from: nat)
    ensures ScaleCast(0.0, to, from) == 0
    ensures x <= x' ==> ScaleCast(x, to, from) <= ScaleCast(x', to, from)
  {
    if from > 0 {
      RescaleOrder(x, x', to, from);
      if x <= x' {
        SatI32Monotone(Rescale(x, to, from), Rescale(x', to, from));
      }
    } else if x <= x' {
      assert x * to as real <= x' * to as real;
    }
  }

  /** A value within an `i32`-sized bound keeps that bound through the cast. */
  lemma CastWithin(r: real, bound: real)
    requires -bound <= r <= bound && bound < 2147483647.0
    ensures -bound <= SatI32(r) as real <= bound
  {
  }

  /** A coordinate within half the viewport span of the centre lands within half the canvas
      span; for an empty viewport span the only such coordinate is 0, which lands on 0. */
  lemma ScaleCastWithin(x: real, to: nat, from: nat)
    requires to < 0x8000_0000 && -(from as real) / 2.0 <= x <= from as real / 2.0
    ensures -(to as real) / 2.0 <= ScaleCast(x, to, from) as real <= to as real / 2.0
  {
    if from > 0 {
      RescaleWithin(x, to, from);
      CastWithin(Rescale(x, to, from), to as real / 2.0);
    } else {
      ScaleCastOrder(x, x, to, from);
    }
  }

  /** `Scene::viewport_to_canvas`: scales `x` by `canvas.width / width` and `y` by
      `canvas.height / height`, casts each to `i32` and gives full shading. */
  function ViewportToCanvas(s: Scene, canvas: Canvas, x: real, y: real): (p: Point2)
    ensures p.h == 1.0
    ensures -0x8000_0000 <= p.x < 0x8000_0000 && -0x8000_0000 <= p.y < 0x8000_0000
  {
    XY(ScaleCast(x, canvas.width, s.width), ScaleCast(y, canvas.height, s.height))
  }

  /** The two axes are scaled independently, the result has full shading, and each axis keeps
      the order of its inputs, whatever the size of the viewport. */
  lemma ViewportToCanvasAxes(s: Scene, canvas: Canvas, x: real, y: real, x': real, y': real)
    ensures ViewportToCanvas(s, canvas, x, y).h == 1.0
    ensures ViewportToCanvas(s, canvas, x, y).x == ViewportToCanvas(s, canvas, x, y').x
    ensures ViewportToCanvas(s, canvas, x, y).y == ViewportToCanvas(s, canvas, x', y).y
    ensures x <= x' ==> ViewportToCanvas(s, canvas, x, y).x <= ViewportToCanvas(s, canvas, x', y).x
    ensures y <= y' ==> ViewportToCanvas(s, canvas, x, y).y <= ViewportToCanvas(s, canvas, x, y').y
  {
    ScaleCastOrder(x, x', canvas.width, s.width);
    ScaleCastOrder(y, y', canvas.height, s.height);
  }

  /** The viewport's centre lands on the canvas centre, and a point of the viewport lands on
      the canvas: its coordinates stay within half the canvas size of the centre. */
  lemma ViewportMapsOntoCanvas(s: Scene, canvas: Canvas, x: real, y: real)
    requires canvas.width < 0x8000_0000 && canvas.height < 0x8000_0000
    requires -(s.width as real) / 2.0 <= x <= s.width as real / 2.0
    requires -(s.height as real) / 2.0 <= y <= s.height as real / 2.0
    ensures ViewportToCanvas(s, canvas, 0.0, 0.0) == XY(0, 0)
    ensures -(canvas.width as real) / 2.0 <= ViewportToCanvas(s, canvas, x, y).x as real <= canvas.width as real / 2.0
    ensures -(canvas.height as real) / 2.0 <= ViewportToCanvas(s, canvas, x, y).y as real <= canvas.height as real / 2.0
  {
    ScaleCastOrder(0.0, 0.0, canvas.width, s.width);
    ScaleCastOrder(0.0, 0.0, canvas.height, s.height);
    ScaleCastWithin(x, canvas.width, s.width);
    ScaleCastWithin(y, canvas.height, s.height);
  }

  /** A vertex `project_vertex` can handle: in front of or behind the camera, not level with it. */
  predicate Projectable(v: Vertex)
  {
    v.z != 0.0
  }

  /** The perspective divide `a * d / z`: where the ray from the camera through a point at
      depth `z` meets the plane at distance `d`. */
  function Divide(a: real, d: real, z: real): real
    requires z != 0.0
  {
    a * d / z
  }

  /** A point already on the plane (`z == d`) stays where it is. */
  lemma DivideOnPlane(a: real, d: real, z: real)
    requires z != 0.0 && z == d
    ensures Divide(a, d, z) == a
  {
  }

  /** Moving a point along its ray, scaling it (`ka`) and its depth (`kz`) by the same `k`,
      does not move its image on the plane. */
  lemma DivideAlongRay(a: real, d: real, z: real, k: real, ka: real, kz: real)
    requires z != 0.0 && k != 0.0 && ka == k * a && kz == k * z
    ensures kz != 0.0 && Divide(ka, d, kz) == Divide(a, d, z)
  {
    assert ka * d == k * (a * d);
  }

  /** `Scene::project_vertex`: the perspective divide onto the plane at distance `d`, then
      `viewport_to_canvas`. */
  function ProjectVertex(s: Scene, canvas: Canvas, v: Vertex): (p: Point2)
    requires Projectable(v)
    ensures p.h == 1.0
    ensures -0x8000_0000 <= p.x < 0x8000_0000 && -0x8000_0000 <= p.y < 0x8000_0000
  {
    ViewportToCanvas(s, canvas, Divide(v.x, s.d, v.z), Divide(v.y, s.d, v.z))
  }

  /** A point on the projection plane `z == d` is handed to `viewport_to_canvas` unchanged. */
  lemma ProjectionOnPlane(s: Scene, canvas: Canvas, v: Vertex)
    requires Projectable(v) && v.z == s.d
    ensures ProjectVertex(s, canvas, v) == ViewportToCanvas(s, canvas, v.x, v.y)
  {
    DivideOnPlane(v.x, s.d, v.z);
    DivideOnPlane(v.y, s.d, v.z);
  }

  /** Points on one line through the camera project to the same pixel. */
  lemma ProjectionAlongRay(s: Scene, canvas: Canvas, v: Vertex, k: real, w: Vertex)
    requires Projectable(v) && k != 0.0
    requires w.x == k * v.x && w.y == k * v.y && w.z == k * v.z
    ensures Projectable(w) && ProjectVertex(s, canvas, w) == ProjectVertex(s, canvas, v)
  {
    DivideAlongRay(v.x, s.d, v.z, k, w.x, w.z);
    DivideAlongRay(v.y, s.d, v.z, k, w.y, w.z);
  }

  /** A model vertex moved to the instance's position, as the loop of `render_instance` does
      on its copy `v`. */
  function Offset(v: Vertex, position: Vertex): (w: Vertex)
    ensures w.x - v.x == position.x && w.y - v.y == position.y && w.z - v.z == position.z
  {
    Vertex(v.x + position.x, v.y + position.y, v.z + position.z)
  }

  /** Every vertex of the instance, once moved, can be projected. */
  predicate InstanceProjectable(inst: Instance)
  {
    forall i :: 0 <= i < |inst.model.vertices| ==> Projectable(Offset(inst.model.vertices[i], inst.position))
  }

  /** The `projected` list of `render_instance` for the vertices `vs`: their projections after
      moving them to `position`, in order. */
  function ProjectedVertices(s: Scene, canvas: Canvas, vs: seq<Vertex>, position: Vertex): (r: seq<Point2>)
    requires forall i :: 0 <= i < |vs| ==> Projectable(Offset(vs[i], position))
    ensures |r| == |vs|
    ensures forall i :: 0 <= i < |vs| ==> r[i] == ProjectVertex(s, canvas, Offset(vs[i], position))
  {
    if vs == [] then []
    else ProjectedVertices(s, canvas, vs[..|vs| - 1], position) + [ProjectVertex(s, canvas, Offset(vs[|vs| - 1], position))]
  }

  /** Every corner index of every triangle of `ts` is below `n`. */
  predicate IndicesBelow(ts: seq<Triangle>, n: nat)
  {
    forall j :: 0 <= j < |ts| ==> ts[j].v.0 < n && ts[j].v.1 < n && ts[j].v.2 < n
  }

  /** The wireframe `render_triangle` draws for `t`: its three projected corners and its colour. */
  function WireframeOf(projected: seq<Point2>, t: Triangle): Wireframe
    requires t.v.0 < |projected| && t.v.1 < |projected| && t.v.2 < |projected|
  {
    Wireframe(projected[t.v.0], projected[t.v.1], projected[t.v.2], t.color)
  }

  /** The wireframes drawn for the triangles `ts`, one per triangle, in list order. */
  function Wireframes(projected: seq<Point2>, ts: seq<Triangle>): (r: seq<Wireframe>)
    requires IndicesBelow(ts, |projected|)
    ensures |r| == |ts|
    ensures forall j :: 0 <= j < |ts| ==> r[j] == WireframeOf(projected, ts[j])
  {
    if ts == [] then []
    else Wireframes(projected, ts[..|ts| - 1]) + [WireframeOf(projected, ts[|ts| - 1])]
  }

  /** One more vertex projected is one more entry at the end of the list. */
  lemma ProjectedStep(s: Scene, canvas: Canvas, vs: seq<Vertex>, position: Vertex, i: nat)
    requires i < |vs| && forall k :: 0 <= k < |vs| ==> Projectable(Offset(vs[k], position))
    ensures Projectable(Offset(vs[i], position))
    ensures ProjectedVertices(s, canvas, vs[..i + 1], position)
      == ProjectedVertices(s, canvas, vs[..i], position) + [ProjectVertex(s, canvas, Offset(vs[i], position))]
  {
    assert vs[..i + 1][..i] == vs[..i];
  }

  /** One more triangle drawn is one more wireframe at the end of the list. */
  lemma WireframesStep(projected: seq<Point2>, ts: seq<Triangle>, j: nat)
    requires j < |ts| && IndicesBelow(ts, |projected|)
    ensures Wireframes(projected, ts[..j + 1]) == Wireframes(projected, ts[..j]) + [WireframeOf(projected, ts[j])]
  {
    assert ts[..j + 1][..j] == ts[..j];
  }

  /** `Scene::render_triangle`: draws the triangle's three projected corners in its colour. */
  method RenderTriangle(s: Scene, canvas: Canvas, triangle: Triangle, projected: seq<Point2>)
    requires triangle.v.0 < |projected| && triangle.v.1 < |projected| && triangle.v.2 < |projected|
    modifies canvas
    ensures canvas.drawn == old(canvas.drawn) + [WireframeOf(projected, triangle)]
  {
    canvas.DrawWireframe(projected[triangle.v.0], projected[triangle.v.1], projected[triangle.v.2], triangle.color);
  }

  /** `Scene::render_instance`: projects every vertex of the instance's model, moved to the
      instance's position, then draws one wireframe per triangle, in order. The instance and
      its model are values: only the canvas changes. */
  method RenderInstance(s: Scene, canvas: Canvas, inst: Instance)
    requires InstanceProjectable(inst)
    requires IndicesBelow(inst.model.triangles, |inst.model.vertices|)
    modifies canvas
    ensures canvas.drawn == old(canvas.drawn) +
      Wireframes(ProjectedVertices(s, canvas, inst.model.vertices, inst.position), inst.model.triangles)
  {
    var vertices := inst.model.vertices;
    var projected: seq<Point2> := [];
    for i := 0 to |vertices|
      invariant projected == ProjectedVertices(s, canvas, vertices[..i], inst.position)
      invariant canvas.drawn == old(canvas.drawn)
    {
      var v := vertices[i];
      v := v.(x := v.x + inst.position.x);
      v := v.(y := v.y + inst.position.y);
      v := v.(z := v.z + inst.position.z);
      assert v == Offset(vertices[i], inst.position);
      ProjectedStep(s, canvas, vertices, inst.position, i);
      projected := projected + [ProjectVertex(s, canvas, v)];
    }
    assert vertices[..|vertices|] == vertices;
    var triangles := inst.model.triangles;
    for j := 0 to |triangles|
      invariant canvas.drawn == old(canvas.drawn) + Wireframes(projected, triangles[..j])
    {
      WireframesStep(projected, triangles, j);
      RenderTriangle(s, canvas, triangles[j], projected);
    }
    assert triangles[..|triangles|] == triangles;
  }

  /** The unit cube of `render2`, with its faces coloured by the given colours. */
  function Cube(red: u32, green: u32, blue: u32, yellow: u32, purple: u32, cyan: u32): Model
  {
    NewModel(
      [Vertex(1.0, 1.0, 1.0), Vertex(-1.0, 1.0, 1.0), Vertex(-1.0, -1.0, 1.0), Vertex(1.0, -1.0, 1.0),
       Vertex(1.0, 1.0, -1.0), Vertex(-1.0, 1.0, -1.0), Vertex(-1.0, -1.0, -1.0), Vertex(1.0, -1.0, -1.0)],
      [NewTriangle((0, 1, 2), red), NewTriangle((0, 2, 3), red),
       NewTriangle((4, 0, 3), green), NewTriangle((4, 3, 7), green),
       NewTriangle((5, 4, 7), blue), NewTriangle((5, 7, 6), blue),
       NewTriangle((1, 5, 6), yellow), NewTriangle((1, 6, 2), yellow),
       NewTriangle((4, 5, 1), purple), NewTriangle((4, 1, 0), purple),
       NewTriangle((2, 6, 7), cyan), NewTriangle((2, 7, 3), cyan)])
  }

  /** Both cube instances of `render2` meet what `render_instance` needs: every corner index is
      one of the eight vertices, and every moved vertex lies in front of the camera. Rendering
      each draws its twelve triangles. */
  lemma CubeInstancesRenderable(red: u32, green: u32, blue: u32, yellow: u32, purple: u32, cyan: u32)
    ensures var cube := Cube(red, green, blue, yellow, purple, cyan);
      |cube.vertices| == 8 && |cube.triangles| == 12 && IndicesBelow(cube.triangles, 8)
    ensures var cube := Cube(red, green, blue, yellow, purple, cyan);
      InstanceProjectable(NewInstance(cube, Vertex(-1.5, 0.0, 7.0)))
      && InstanceProjectable(NewInstance(cube, Vertex(1.25, 2.0, 7.5)))
    ensures var cube := Cube(red, green, blue, yellow, purple, cyan);
      forall i :: 0 <= i < 8 ==>
        0.0 < Offset(cube.vertices[i], Vertex(-1.5, 0.0, 7.0)).z && 0.0 < Offset(cube.vertices[i], Vertex(1.25, 2.0, 7.5)).z
  {
  }
}
