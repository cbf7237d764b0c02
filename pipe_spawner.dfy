/**
  `PipeSpawnerScript`: the spawn timer and the geometry of each pipe pair.
  The `System.Random` stream is the function `draw`, whose n-th value is
  the n-th `NextDouble`; `drawCount` says how many values are consumed.
  The camera, the prefab (and whether its three children exist) and the
  spawner's x position are inputs; each `Instantiate` is recorded in
  `instances`.
 */
module PipeSpawner {
  import opened Wrappers

  const MIN_GAP_SIZE: real := 6.0
  const MAX_GAP_SIZE: real := 10.0

  /** What the scene provides: the main camera, and the pipe prefab with
      the height of its top sprite and the width of its middle collider
      (`childrenFound` is false when a child named "Top Pipe", "Bottom
      Pipe" or "Middle" is missing). */
  datatype Camera = Camera(y: real, orthographicSize: real)
  datatype Prefab = Prefab(childrenFound: bool, pipeHeight: real, colliderWidth: real)

  /** An instantiated prefab: left at y = 0 when its children are
      missing, otherwise moved to the gap centre with its pipes placed. */
  datatype PipeInstance =
    | Unplaced(x: real)
    | Placed(x: real, y: real, gapSize: real, pipeHeight: real, topOffset: real, bottomOffset: real,
             colliderWidth: real, colliderHeight: real)

  /** A placed pair: the pipes sit symmetrically around the centre, their
      inner edges exactly `gapSize` apart, and the middle collider is as
      tall as the gap. */
  predicate WellPlaced(p: PipeInstance)
  {
    p.Placed? ==>
      MIN_GAP_SIZE <= p.gapSize < MAX_GAP_SIZE
      && p.topOffset == -p.bottomOffset
      && (p.topOffset - p.pipeHeight / 2.0) - (p.bottomOffset + p.pipeHeight / 2.0) == p.gapSize
      && p.colliderHeight == p.gapSize
  }

  /** A gap size drawn from `d` in [0, 1) lies in [6, 10). */
  function GapSize(d: real): (g: real)
    requires 0.0 <= d < 1.0
    ensures MIN_GAP_SIZE <= g < MAX_GAP_SIZE
  {
    MIN_GAP_SIZE + d * (MAX_GAP_SIZE - MIN_GAP_SIZE)
  }

  /** The gap centre drawn from `d` lies between the two limits when they
      are in order. */
  function CentreY(minCenterY: real, maxCenterY: real, d: real): (y: real)
    requires 0.0 <= d < 1.0
    ensures minCenterY <= maxCenterY ==> minCenterY <= y <= maxCenterY
  {
    var w := maxCenterY - minCenterY;
    if w >= 0.0 then
      MulNonNegative(w, 1.0 - d);
      assert 0.0 <= d * w <= w;
      minCenterY + d * w
    else
      minCenterY + d * w
  }

  /** How many values a call of `spawnPipe` consumes. */
  function DrawsPerSpawn(pipe: Option<Prefab>, modeManagerPresent: bool): (n: nat)
    ensures n <= 2
  {
    if pipe.None? || !modeManagerPresent then 0 else if !pipe.value.childrenFound then 1 else 2
  }

  /** How many instances a call of `spawnPipe` creates. */
  function InstancesPerSpawn(pipe: Option<Prefab>, modeManagerPresent: bool): (n: nat)
    ensures n <= 1
  {
    if pipe.Some? && modeManagerPresent then 1 else 0
  }

  /** The number of spawns for an accumulated time t: the whole number of
      spawn periods in it. */
  lemma SpawnCountIsFloor(t: real, rate: real, calls: int)
    requires rate > 0.0 && t >= 0.0
    requires calls as real * rate <= t < (calls + 1) as real * rate
    ensures calls == (t / rate).Floor
  {
    var q := t / rate;
    assert q * rate == t;
    MulCancel(calls as real, q, rate);
    MulCancelStrict(q, (calls + 1) as real, rate);
  }

  /** Multiplying by a positive factor keeps the order. */
  lemma MulCancel(a: real, b: real, r: real)
    requires r > 0.0 && a * r <= b * r
    ensures a <= b
  {
    if a > b {
      MulPositive(a - b, r);
      assert false;
    }
  }

  lemma MulCancelStrict(a: real, b: real, r: real)
    requires r > 0.0 && a * r < b * r
    ensures a < b
  {
    if a >= b {
      MulNonNegative(a - b, r);
      assert false;
    }
  }

  lemma MulPositive(x: real, r: real)
    requires x > 0.0 && r > 0.0
    ensures x * r > 0.0
  {
  }

  lemma MulNonNegative(x: real, r: real)
    requires x >= 0.0 && r > 0.0
    ensures x * r >= 0.0
  {
  }

  class PipeSpawnerScript {
    const spawnRate: real
    /** The random stream and the number of values taken from it. */
    const draw: nat -> real
    var drawCount: nat
    var timer: real
    var gapSize: real
    var camTop: real
    var camBottom: real
    var maxCenterY: real
    var minCenterY: real
    var onePipeHeight: real
    var pipeHalfHeight: real
    var instances: seq<PipeInstance>

    /** The stream yields values in [0, 1), as `NextDouble` does, and
        every instance is well placed. */
    ghost predicate Valid()
      reads this
    {
      (forall n: nat :: 0.0 <= draw(n) < 1.0)
      && forall i :: 0 <= i < |instances| ==> WellPlaced(instances[i])
    }

    /** The field initialisers, with the inspector's spawn rate and the
        random stream. */
    constructor(spawnRate: real, draw: nat -> real)
      requires forall n: nat :: 0.0 <= draw(n) < 1.0
      ensures Valid() && this.spawnRate == spawnRate && this.draw == draw
      ensures timer == 0.0 && gapSize == 7.0 && drawCount == 0 && instances == []
    {
      this.spawnRate := spawnRate;
      this.draw := draw;
      drawCount := 0;
      timer := 0.0;
      gapSize := 7.0;
      camTop := 0.0;
      camBottom := 0.0;
      maxCenterY := 0.0;
      minCenterY := 0.0;
      onePipeHeight := 0.0;
      pipeHalfHeight := 0.0;
      instances := [];
    }

    /** The next `NextDouble`. */
    method NextDouble() returns (d: real)
      requires Valid()
      modifies this`drawCount
      ensures d == draw(old(drawCount)) && 0.0 <= d < 1.0 && drawCount == old(drawCount) + 1
      ensures timer == old(timer) && gapSize == old(gapSize) && instances == old(instances)
      ensures camTop == old(camTop) && camBottom == old(camBottom)
      ensures maxCenterY == old(maxCenterY) && minCenterY == old(minCenterY)
      ensures onePipeHeight == old(onePipeHeight) && pipeHalfHeight == old(pipeHalfHeight)
    {
      d := draw(drawCount);
      drawCount := drawCount + 1;
    }

    /** `updateCameraBounds`: the view's edges, and the limits of the gap
        centre that keep the current gap inside the view. */
    method UpdateCameraBounds(cam: Camera)
      modifies this`camTop, this`camBottom, this`maxCenterY, this`minCenterY
      ensures camTop == cam.y + cam.orthographicSize && camBottom == cam.y - cam.orthographicSize
      ensures maxCenterY == camTop - gapSize / 2.0 && minCenterY == camBottom + gapSize / 2.0
      ensures timer == old(timer) && gapSize == old(gapSize) && instances == old(instances)
      ensures drawCount == old(drawCount)
      ensures onePipeHeight == old(onePipeHeight) && pipeHalfHeight == old(pipeHalfHeight)
    {
      camTop := cam.y + cam.orthographicSize;
      camBottom := cam.y - cam.orthographicSize;
      maxCenterY := camTop - (gapSize / 2.0);
      minCenterY := camBottom + (gapSize / 2.0);
    }

    /** `spawnPipe`, with `pipe` the prefab (None when unassigned) and
        `x` the spawner's position. */
    method SpawnPipe(pipe: Option<Prefab>, modeManagerPresent: bool, cam: Camera, x: real)
      requires Valid()
      modifies this`drawCount, this`gapSize, this`instances, this`camTop, this`camBottom, this`maxCenterY, this`minCenterY, this`onePipeHeight, this`pipeHalfHeight
      ensures Valid() && timer == old(timer)
      ensures drawCount == old(drawCount) + DrawsPerSpawn(pipe, modeManagerPresent)
      ensures |instances| == |old(instances)| + InstancesPerSpawn(pipe, modeManagerPresent)
      ensures instances[..|old(instances)|] == old(instances)
      ensures pipe.None? || !modeManagerPresent ==>
        gapSize == old(gapSize) && camTop == old(camTop) && camBottom == old(camBottom)
        && maxCenterY == old(maxCenterY) && minCenterY == old(minCenterY)
      ensures pipe.Some? && modeManagerPresent ==> gapSize == GapSize(draw(old(drawCount)))
      ensures !(pipe.Some? && modeManagerPresent && pipe.value.childrenFound) ==>
        onePipeHeight == old(onePipeHeight) && pipeHalfHeight == old(pipeHalfHeight)
      ensures pipe.Some? && modeManagerPresent && !pipe.value.childrenFound ==>
        instances[|old(instances)|] == Unplaced(x)
        && camTop == old(camTop) && camBottom == old(camBottom)
        && maxCenterY == old(maxCenterY) && minCenterY == old(minCenterY)
      ensures pipe.Some? && modeManagerPresent && pipe.value.childrenFound ==>
        var h := pipe.value.pipeHeight;
        onePipeHeight == h && pipeHalfHeight == h / 2.0
        && camTop == cam.y + cam.orthographicSize && camBottom == cam.y - cam.orthographicSize
        && maxCenterY == camTop - gapSize / 2.0 && minCenterY == camBottom + gapSize / 2.0
        && instances[|old(instances)|] == Placed(x, CentreY(minCenterY, maxCenterY, draw(old(drawCount) + 1)),
             gapSize, h, gapSize / 2.0 + h / 2.0, -(gapSize / 2.0) - h / 2.0, pipe.value.colliderWidth, gapSize)
    {
      if pipe.None? {
        return;
      }
      if !modeManagerPresent {
        return;
      }
      var d := NextDouble();
      gapSize := MIN_GAP_SIZE + d * (MAX_GAP_SIZE - MIN_GAP_SIZE);
      assert gapSize == GapSize(d);
      var prefab := pipe.value;
      if !prefab.childrenFound {
        instances := instances + [Unplaced(x)];
        return;
      }
      PlacePipe(prefab, cam, x);
    }

    /** The second half of `spawnPipe` once the children are found: the
        bounds for the new gap, the drawn centre, and the placed pair. */
    method PlacePipe(prefab: Prefab, cam: Camera, x: real)
      requires Valid() && prefab.childrenFound && MIN_GAP_SIZE <= gapSize < MAX_GAP_SIZE
      modifies this`drawCount, this`instances, this`camTop, this`camBottom, this`maxCenterY, this`minCenterY, this`onePipeHeight, this`pipeHalfHeight
      ensures Valid() && timer == old(timer) && gapSize == old(gapSize)
      ensures drawCount == old(drawCount) + 1
      ensures onePipeHeight == prefab.pipeHeight && pipeHalfHeight == prefab.pipeHeight / 2.0
      ensures camTop == cam.y + cam.orthographicSize && camBottom == cam.y - cam.orthographicSize
      ensures maxCenterY == camTop - gapSize / 2.0 && minCenterY == camBottom + gapSize / 2.0
      ensures instances == old(instances) + [Placed(x, CentreY(minCenterY, maxCenterY, draw(old(drawCount))),
        gapSize, prefab.pipeHeight, gapSize / 2.0 + prefab.pipeHeight / 2.0,
        -(gapSize / 2.0) - prefab.pipeHeight / 2.0, prefab.colliderWidth, gapSize)]
    {
      onePipeHeight := prefab.pipeHeight;
      pipeHalfHeight := onePipeHeight / 2.0;
      UpdateCameraBounds(cam);
      var e := NextDouble();
      var spawnY := minCenterY + e * (maxCenterY - minCenterY);
      assert spawnY == CentreY(minCenterY, maxCenterY, e);
      var top := (gapSize / 2.0) + (onePipeHeight / 2.0);
      var bottom := -(gapSize / 2.0) - (onePipeHeight / 2.0);
      var placed := Placed(x, spawnY, gapSize, onePipeHeight, top, bottom, prefab.colliderWidth, gapSize);
      assert WellPlaced(placed);
      instances := instances + [placed];
    }

    /** `Start`: nothing without a `GameModeManager`; otherwise the bounds
        are computed for the initial gap and one pipe is spawned. */
    method Start(pipe: Option<Prefab>, modeManagerPresent: bool, cam: Camera, x: real)
      requires Valid()
      modifies this`drawCount, this`gapSize, this`instances, this`camTop, this`camBottom, this`maxCenterY, this`minCenterY, this`onePipeHeight, this`pipeHalfHeight
      ensures Valid() && timer == old(timer)
      ensures !modeManagerPresent ==> drawCount == old(drawCount) && instances == old(instances)
      ensures !modeManagerPresent ==> unchanged(this)
      ensures modeManagerPresent ==>
        drawCount == old(drawCount) + DrawsPerSpawn(pipe, true)
        && |instances| == |old(instances)| + InstancesPerSpawn(pipe, true)
        && instances[..|old(instances)|] == old(instances)
        && camTop == cam.y + cam.orthographicSize && camBottom == cam.y - cam.orthographicSize
      ensures modeManagerPresent && pipe.None? ==>
        gapSize == old(gapSize) && maxCenterY == camTop - gapSize / 2.0 && minCenterY == camBottom + gapSize / 2.0
      ensures modeManagerPresent && pipe.Some? ==> gapSize == GapSize(draw(old(drawCount)))
      ensures modeManagerPresent && !(pipe.Some? && pipe.value.childrenFound) ==>
        onePipeHeight == old(onePipeHeight) && pipeHalfHeight == old(pipeHalfHeight)
      ensures modeManagerPresent && pipe.Some? && !pipe.value.childrenFound ==>
        instances[|old(instances)|] == Unplaced(x)
        && maxCenterY == camTop - old(gapSize) / 2.0 && minCenterY == camBottom + old(gapSize) / 2.0
      ensures modeManagerPresent && pipe.Some? && pipe.value.childrenFound ==>
        var h := pipe.value.pipeHeight;
        onePipeHeight == h && pipeHalfHeight == h / 2.0
        && maxCenterY == camTop - gapSize / 2.0 && minCenterY == camBottom + gapSize / 2.0
        && instances[|old(instances)|] == Placed(x, CentreY(minCenterY, maxCenterY, draw(old(drawCount) + 1)),
             gapSize, h, gapSize / 2.0 + h / 2.0, -(gapSize / 2.0) - h / 2.0, pipe.value.colliderWidth, gapSize)
        && WellPlaced(instances[|old(instances)|])
    {
      if !modeManagerPresent {
        return;
      }
      UpdateCameraBounds(cam);
      SpawnPipe(pipe, modeManagerPresent, cam, x);
    }

    /** `Update`: the frame time is added to the timer and one spawn is
        made per whole spawn period in it. */
    method Update(deltaTime: real, pipe: Option<Prefab>, modeManagerPresent: bool, cam: Camera, x: real)
      returns (calls: nat)
      requires Valid() && spawnRate > 0.0
      modifies this`drawCount, this`gapSize, this`instances, this`camTop, this`camBottom, this`maxCenterY, this`minCenterY, this`onePipeHeight, this`pipeHalfHeight, this`timer
      ensures Valid()
      ensures timer == old(timer) + deltaTime - calls as real * spawnRate
      ensures old(timer) + deltaTime < spawnRate ==> calls == 0
      ensures old(timer) + deltaTime >= 0.0 ==>
        0.0 <= timer < spawnRate && calls == ((old(timer) + deltaTime) / spawnRate).Floor
      ensures drawCount == old(drawCount) + calls * DrawsPerSpawn(pipe, modeManagerPresent)
      ensures |instances| == |old(instances)| + calls * InstancesPerSpawn(pipe, modeManagerPresent)
      ensures instances[..|old(instances)|] == old(instances)
      ensures calls == 0 ==>
        drawCount == old(drawCount) && instances == old(instances) && gapSize == old(gapSize)
        && camTop == old(camTop) && camBottom == old(camBottom)
        && maxCenterY == old(maxCenterY) && minCenterY == old(minCenterY)
        && onePipeHeight == old(onePipeHeight) && pipeHalfHeight == old(pipeHalfHeight)
    {
      var t := timer + deltaTime;
      timer := t;
      calls := 0;
      while timer >= spawnRate
        invariant Valid()
        invariant timer == t - calls as real * spawnRate
        invariant t >= 0.0 ==> timer >= 0.0
        invariant t < spawnRate ==> calls == 0
        invariant drawCount == old(drawCount) + calls * DrawsPerSpawn(pipe, modeManagerPresent)
        invariant |instances| == |old(instances)| + calls * InstancesPerSpawn(pipe, modeManagerPresent)
        invariant instances[..|old(instances)|] == old(instances)
        invariant calls == 0 ==>
          drawCount == old(drawCount) && instances == old(instances) && gapSize == old(gapSize)
          && camTop == old(camTop) && camBottom == old(camBottom)
          && maxCenterY == old(maxCenterY) && minCenterY == old(minCenterY)
          && onePipeHeight == old(onePipeHeight) && pipeHalfHeight == old(pipeHalfHeight)
        decreases (timer / spawnRate).Floor
      {
        SpawnRound(pipe, modeManagerPresent, cam, x, t, calls, old(drawCount), old(instances));
        calls := calls + 1;
      }
      if t >= 0.0 {
        SpawnCountIsFloor(t, spawnRate, calls);
      }
    }

    /** One pass of `Update`'s loop: a spawn, and one period off the timer. */
    method SpawnRound(pipe: Option<Prefab>, modeManagerPresent: bool, cam: Camera, x: real,
                      ghost t: real, ghost calls: nat, ghost draws0: nat, ghost instances0: seq<PipeInstance>)
      requires Valid() && spawnRate > 0.0 && timer >= spawnRate
      requires timer == t - calls as real * spawnRate
      requires drawCount == draws0 + calls * DrawsPerSpawn(pipe, modeManagerPresent)
      requires |instances| == |instances0| + calls * InstancesPerSpawn(pipe, modeManagerPresent)
      requires instances[..|instances0|] == instances0
      modifies this`drawCount, this`gapSize, this`instances, this`camTop, this`camBottom, this`maxCenterY, this`minCenterY, this`onePipeHeight, this`pipeHalfHeight, this`timer
      ensures Valid() && timer == old(timer) - spawnRate && timer >= 0.0 && t >= spawnRate
      ensures timer == t - (calls + 1) as real * spawnRate
      ensures (timer / spawnRate).Floor < (old(timer) / spawnRate).Floor && 0 <= (old(timer) / spawnRate).Floor
      ensures drawCount == draws0 + (calls + 1) * DrawsPerSpawn(pipe, modeManagerPresent)
      ensures |instances| == |instances0| + (calls + 1) * InstancesPerSpawn(pipe, modeManagerPresent)
      ensures instances[..|instances0|] == instances0
    {
      if calls > 0 {
        MulNonNegative(calls as real, spawnRate);
      }
      ghost var before := instances;
      SpawnPipe(pipe, modeManagerPresent, cam, x);
      assert instances[..|instances0|] == before[..|instances0|];
      var dn := DrawsPerSpawn(pipe, modeManagerPresent);
      var inst := InstancesPerSpawn(pipe, modeManagerPresent);
      assert (calls + 1) * dn == calls * dn + dn;
      assert (calls + 1) * inst == calls * inst + inst;
      FloorStep(timer, spawnRate);
      timer := timer - spawnRate;
      assert (calls + 1) as real * spawnRate == calls as real * spawnRate + spawnRate;
    }
  }

  /** Taking one period off a time of at least one period lowers its
      number of periods by one. */
  lemma FloorStep(t: real, rate: real)
    requires rate > 0.0 && t >= rate
    ensures ((t - rate) / rate).Floor == (t / rate).Floor - 1 && (t / rate).Floor >= 1
  {
    var a := (t - rate) / rate;
    var b := t / rate;
    assert a * rate == t - rate && b * rate == t;
    assert (b - 1.0) * rate == t - rate;
    MulCancel(a, b - 1.0, rate);
    MulCancel(b - 1.0, a, rate);
    MulCancel(1.0, b, rate);
  }
}
