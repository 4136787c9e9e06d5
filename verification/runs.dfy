/**
 * Properties of several draws in a row: what the states cache saves when a
 * submission repeats the previous one, why textures are compared by cache
 * identity, and how often the blend applier runs over a whole run.
 */
module Runs {
  import opened Wrappers
  import opened Geometry
  import opened Resources
  import opened Device
  import opened Protocol
  import opened Draws

  /**
   * Drawing the same submission twice: the second draw runs no view, blend,
   * texture or buffer applier, keeps the cache as the first left it, and
   * reloads the transform and the pointers only when the vertices are not
   * pre-transformed.
   */
  lemma RepeatedArrayDraw(m: Machine, env: Env, count: nat, primitive: PrimitiveType, states: RenderStates)
    requires Submits(env.activated, true, count)
    ensures var r1 := ArrayDraw(m, env, true, count, primitive, states);
      var r2 := ArrayDraw(r1, env, true, count, primitive, states);
      var useCache := UseVertexCache(m.Legacy(), count, states.useVertexCache);
      && r2.cache == r1.cache
      && r2.log.tally.views == r1.log.tally.views
      && r2.log.tally.blends == r1.log.tally.blends
      && r2.log.tally.textures == r1.log.tally.textures
      && r2.log.tally.buffers == r1.log.tally.buffers
      && r2.log.tally.transforms == r1.log.tally.transforms + Once(!useCache)
      && r2.log.tally.pointers == r1.log.tally.pointers + Once(m.Legacy() && !useCache)
  {
    var r1 := ArrayDraw(m, env, true, count, primitive, states);
    ArrayDrawState(m, env, count, primitive, states, CallerArray);
    ArrayDrawState(r1, env, count, primitive, states, CallerArray);
    ArrayDrawAppliers(r1, env, count, primitive, states, CallerArray);
    assert Prepare(r1, env) == r1;
    assert !ShaderChanged(r1, states);
  }

  /**
   * Two consecutive array draws that differ only in their texture: the
   * second runs the texture applier exactly when the cache identities
   * differ, whatever the device handles, and runs no view, blend or buffer
   * applier (the transform is reloaded only for vertices that are not
   * pre-transformed, as in any repeat). Textures are told apart by cache
   * id alone: the device handle, which a new texture may share with a
   * destroyed one, is never consulted.
   */
  lemma TextureIdentity(m: Machine, env: Env, count: nat, primitive: PrimitiveType, states: RenderStates,
                        first: Texture, second: Texture)
    requires Submits(env.activated, true, count)
    ensures var r1 := ArrayDraw(m, env, true, count, primitive, states.(texture := Some(first)));
      var r2 := ArrayDraw(r1, env, true, count, primitive, states.(texture := Some(second)));
      && r2.log.tally.textures == r1.log.tally.textures + Once(first.cacheId != second.cacheId)
      && r2.log.tally.views == r1.log.tally.views
      && r2.log.tally.blends == r1.log.tally.blends
      && r2.log.tally.buffers == r1.log.tally.buffers
      && r2.log.tally.transforms == r1.log.tally.transforms + Once(!UseVertexCache(m.Legacy(), count, states.useVertexCache))
  {
    var s1 := states.(texture := Some(first));
    var s2 := states.(texture := Some(second));
    var r1 := ArrayDraw(m, env, true, count, primitive, s1);
    ArrayDrawState(m, env, count, primitive, s1, CallerArray);
    ArrayDrawAppliers(r1, env, count, primitive, s2, CallerArray);
    assert Prepare(r1, env) == r1;
    assert !ShaderChanged(r1, s2);
  }

  /** One array submission of a run: vertex count, primitive type and render states. */
  datatype Submission = Submission(count: nat, primitive: PrimitiveType, states: RenderStates)

  /** The machine after drawing each submission of `run` in order. */
  ghost function RunArrayDraws(m: Machine, env: Env, run: seq<Submission>): Machine
    decreases |run|
  {
    if run == [] then m
    else
      var last := run[|run| - 1];
      ArrayDraw(RunArrayDraws(m, env, run[..|run| - 1]), env, true, last.count, last.primitive, last.states)
  }

  /** The blend mode in force after `run`, starting from `start`. */
  function FinalBlendMode(start: BlendMode, run: seq<Submission>): BlendMode
  {
    if run == [] then start else run[|run| - 1].states.blendMode
  }

  /** How many submissions of `run` ask for a blend mode other than the one in force before them. */
  function BlendModeChanges(start: BlendMode, run: seq<Submission>): nat
    decreases |run|
  {
    if run == [] then 0
    else
      var before := run[..|run| - 1];
      BlendModeChanges(start, before) + Once(run[|run| - 1].states.blendMode != FinalBlendMode(start, before))
  }

  /**
   * Over a run of non-empty array draws on a set-up target, the blend
   * applier runs once per change of blend mode and never otherwise, and the
   * cache ends with the last submission's mode.
   */
  lemma {:induction false} RunBlendApplications(m: Machine, env: Env, run: seq<Submission>)
    requires env.activated && m.cache.glStatesSet
    requires forall i :: 0 <= i < |run| ==> run[i].count > 0
    ensures var r := RunArrayDraws(m, env, run);
      && r.cache.glStatesSet
      && r.cache.lastBlendMode == FinalBlendMode(m.cache.lastBlendMode, run)
      && r.log.tally.blends == m.log.tally.blends + BlendModeChanges(m.cache.lastBlendMode, run)
    decreases |run|
  {
    if run != [] {
      var before := run[..|run| - 1];
      var last := run[|run| - 1];
      RunBlendApplications(m, env, before);
      var r0 := RunArrayDraws(m, env, before);
      ArrayDrawState(r0, env, last.count, last.primitive, last.states, CallerArray);
      ArrayDrawAppliers(r0, env, last.count, last.primitive, last.states, CallerArray);
    }
  }
}
