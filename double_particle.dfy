/** The real-vector particle of the swarm optimiser (DoubleParticle.java): a position, a velocity,
    the personal best (a copy of an earlier state of the particle) and its fitness. The swarm
    works on the value of a particle; the class below keeps the same state in arrays and is
    proved to move through the same values. */
module Particles {
  import opened Wrappers

  /** The observable state of a particle; the personal best is held by value. */
  datatype Particle = Particle(
    position: seq<real>,
    velocity: seq<real>,
    personalBest: Option<Particle>,
    personalBestFitness: real)

  /** `copy`: a particle with the same position and velocity and nothing else recorded. */
  function CopyOf(p: Particle): Particle
  {
    Particle(p.position, p.velocity, None, 0.0)
  }

  /** `setPersonalBest`: records a copy of `best`. */
  function WithPersonalBest(p: Particle, best: Particle): Particle
  {
    p.(personalBest := Some(CopyOf(best)))
  }

  /** `assing`: position, velocity and fitness of `source`, and a copy of its personal best. */
  function Assigned(source: Particle): Particle
    requires source.personalBest.Some?
  {
    Particle(source.position, source.velocity, Some(CopyOf(source.personalBest.value)), source.personalBestFitness)
  }

  /** `updatePosition`: every coordinate moved by the matching velocity entry. */
  function Moved(position: seq<real>, velocity: seq<real>): (r: seq<real>)
    requires |velocity| >= |position|
  {
    seq(|position|, i requires 0 <= i < |position| => position[i] + velocity[i])
  }

  /** `calculateComponent`: n entries weight * r_i * (guide_i - current_i), where r_i is the
      uniform draw number `from + i`. */
  function Component(weight: real, draw: nat -> real, from: nat, guide: seq<real>, current: seq<real>, n: nat): seq<real>
    requires |guide| >= n && |current| >= n
  {
    seq(n, i requires 0 <= i < n => weight * draw(from + i) * (guide[i] - current[i]))
  }

  /** Moving adds the velocity coordinate by coordinate and keeps the dimension; a zero velocity
      leaves the position where it was, and moving back by the opposite velocity undoes a move. */
  lemma MovedRules(position: seq<real>, velocity: seq<real>)
    requires |velocity| >= |position|
    ensures |Moved(position, velocity)| == |position|
    ensures forall i :: 0 <= i < |position| ==> Moved(position, velocity)[i] - velocity[i] == position[i]
    ensures (forall i :: 0 <= i < |position| ==> velocity[i] == 0.0) ==> Moved(position, velocity) == position
    ensures Moved(Moved(position, velocity), seq(|velocity|, i requires 0 <= i < |velocity| => -velocity[i])) == position
  {
    var moved := Moved(position, velocity);
    var back := seq(|velocity|, i requires 0 <= i < |velocity| => -velocity[i]);
    assert forall i :: 0 <= i < |position| ==> Moved(moved, back)[i] == position[i];
  }

  /** A component pulls towards the guide: it is all zeros when guide and current share their
      first n coordinates, and with a positive weight and draw each entry has the sign of
      guide_i - current_i. */
  lemma ComponentRules(weight: real, draw: nat -> real, from: nat, guide: seq<real>, current: seq<real>, n: nat)
    requires |guide| >= n && |current| >= n
    ensures |Component(weight, draw, from, guide, current, n)| == n
    ensures guide[..n] == current[..n] ==> forall i :: 0 <= i < n ==> Component(weight, draw, from, guide, current, n)[i] == 0.0
    ensures forall i :: 0 <= i < n && weight > 0.0 && draw(from + i) > 0.0 ==>
      (Component(weight, draw, from, guide, current, n)[i] > 0.0 <==> guide[i] > current[i])
  {
    var c := Component(weight, draw, from, guide, current, n);
    forall i | 0 <= i < n && weight > 0.0 && draw(from + i) > 0.0
      ensures c[i] > 0.0 <==> guide[i] > current[i]
    {
      PositiveScale(weight * draw(from + i), guide[i] - current[i]);
    }
    if guide[..n] == current[..n] {
      forall i | 0 <= i < n
        ensures c[i] == 0.0
      {
        assert guide[i] == guide[..n][i] == current[..n][i] == current[i];
      }
    }
  }

  /** A positive factor keeps the sign of what it scales. */
  lemma PositiveScale(k: real, x: real)
    requires k > 0.0
    ensures k * x > 0.0 <==> x > 0.0
  {
    if x > 0.0 {
      assert k * x > 0.0;
    } else {
      assert k * (-x) >= 0.0;
    }
  }

  /** A copy keeps exactly position and velocity: copying twice is copying once, and a recorded
      or assigned personal best never carries a further personal best. */
  lemma CopyRules(p: Particle, q: Particle)
    ensures CopyOf(CopyOf(p)) == CopyOf(p)
    ensures WithPersonalBest(p, q).personalBest.value.personalBest == None
    ensures q.personalBest.Some? ==> Assigned(q).personalBest.value.personalBest == None
    ensures q.personalBest.Some? ==> CopyOf(Assigned(q)) == CopyOf(q)
  {
  }

  /** A new array holding the entries of `a`, as `double[].clone()`. */
  method Clone(a: array<real>) returns (r: array<real>)
    ensures fresh(r) && r[..] == a[..]
  {
    r := new real[a.Length](i requires 0 <= i < a.Length reads a => a[i]);
  }

  class DoubleParticle {
    var position: array<real>
    var velocity: array<real>
    var personalBest: DoubleParticle?
    var personalBestFitness: real

    /** Position and velocity are separate arrays; a personal best is a separate plain particle
        (one without a personal best of its own) sharing no array with this one. */
    ghost predicate Valid()
      reads this, personalBest
    {
      && position != velocity
      && (personalBest != null ==>
            && personalBest != this
            && personalBest.personalBest == null
            && personalBest.position != personalBest.velocity
            && {personalBest.position, personalBest.velocity} !! {position, velocity})
    }

    /** The value this particle holds. */
    ghost function View(): Particle
      reads this, position, velocity, personalBest
      reads if personalBest == null then {} else {personalBest.position, personalBest.velocity}
    {
      Particle(position[..], velocity[..],
               if personalBest == null then None
               else Some(Particle(personalBest.position[..], personalBest.velocity[..], None, personalBest.personalBestFitness)),
               personalBestFitness)
    }

    /** `DoubleParticle(position, velocity)`: stores clones of both arrays, so later changes to
        the caller's arrays do not reach the particle. */
    constructor(position: array<real>, velocity: array<real>)
      ensures Valid() && fresh(this.position) && fresh(this.velocity)
      ensures View() == Particle(old(position[..]), old(velocity[..]), None, 0.0)
    {
      var p := Clone(position);
      var v := Clone(velocity);
      this.position := p;
      this.velocity := v;
      this.personalBest := null;
      this.personalBestFitness := 0.0;
    }

    /** `setVelocity`: stores a clone of the argument. */
    method SetVelocity(velocity: array<real>)
      requires Valid()
      modifies this
      ensures Valid() && fresh(this.velocity)
      ensures View() == old(View()).(velocity := old(velocity[..]))
    {
      var v := Clone(velocity);
      this.velocity := v;
    }

    /** `updatePosition`: adds the velocity to the position in place, coordinate by coordinate.
        A velocity shorter than the position stops the loop with an index error once the
        coordinates it covers have moved. */
    method UpdatePosition() returns (r: Result<()>)
      requires Valid()
      modifies position
      ensures Valid()
      ensures r.Err? <==> velocity.Length < position.Length
      ensures r.Err? ==> r.error == IndexOutOfBounds
      ensures r.Ok? ==> View() == old(View()).(position := Moved(old(position[..]), velocity[..]))
      ensures r.Err? ==> View() == old(View()).(position := Moved(old(position[..velocity.Length]), velocity[..])
                                                             + old(position[velocity.Length..]))
    {
      var i := 0;
      while i < position.Length
        invariant 0 <= i <= position.Length
        invariant i <= velocity.Length
        invariant position[..i] == Moved(old(position[..i]), velocity[..])
        invariant position[i..] == old(position[i..])
      {
        if i == velocity.Length {
          return Err(IndexOutOfBounds);
        }
        position[i] := position[i] + velocity[i];
        assert position[..i + 1] == position[..i] + [position[i]];
        assert old(position[..i + 1]) == old(position[..i]) + [old(position[i])];
        i := i + 1;
      }
      assert position[..] == position[..i];
      r := Ok(());
    }

    /** `copy`: a fresh particle with clones of the position and the velocity only. */
    method Copy() returns (r: DoubleParticle)
      requires Valid()
      ensures fresh(r) && fresh(r.position) && fresh(r.velocity) && r.Valid()
      ensures r.View() == CopyOf(View())
    {
      r := new DoubleParticle(position, velocity);
    }

    /** `assing`: takes clones of the other's position and velocity, a copy of its personal best
        and its fitness. A source without a personal best fails with a null reference after the
        position and the velocity have been replaced. When this particle is the source's personal
        best, the copy is taken after the replacement, so the recorded personal best is the
        source's position and velocity. */
    method Assing(particle: DoubleParticle) returns (r: Result<()>)
      requires Valid() && particle.Valid()
      modifies this
      ensures Valid()
      ensures r.Err? <==> old(particle.personalBest) == null
      ensures r.Err? ==> r.error == NullPointer
      ensures r.Err? ==> View() == old(View()).(position := old(particle.position[..]), velocity := old(particle.velocity[..]))
      ensures r.Ok? && old(particle.personalBest) != this ==> View() == Assigned(old(particle.View()))
      ensures r.Ok? && old(particle.personalBest) == this ==>
        View() == Assigned(old(particle.View()).(personalBest := Some(CopyOf(old(particle.View())))))
    {
      var p := Clone(particle.position);
      var v := Clone(particle.velocity);
      position, velocity := p, v;
      if particle.personalBest == null {
        return Err(NullPointer);
      }
      var best := particle.personalBest.Copy();
      personalBest := best;
      personalBestFitness := particle.personalBestFitness;
      r := Ok(());
    }

    /** `setPersonalBest`: records a copy of the argument, so later moves of either particle do
        not change the recorded personal best. */
    method SetPersonalBest(best: DoubleParticle)
      requires Valid() && best.Valid()
      modifies this
      ensures Valid() && fresh(personalBest) && fresh(personalBest.position) && fresh(personalBest.velocity)
      ensures View() == WithPersonalBest(old(View()), old(best.View()))
    {
      var c := best.Copy();
      personalBest := c;
    }

    /** `setPersonalBestFitness`. */
    method SetPersonalBestFitness(fitness: real)
      requires Valid()
      modifies this
      ensures Valid()
      ensures View() == old(View()).(personalBestFitness := fitness)
    {
      personalBestFitness := fitness;
    }

    /** `calculateComponent`: a fresh array as long as this particle's position holding
        `Component`, with the uniform draws numbered from `from`; a guide or current particle
        with a shorter position fails with an index error. */
    method CalculateComponent(guide: DoubleParticle, current: DoubleParticle, weight: real, draw: nat -> real, from: nat)
      returns (r: Result<array<real>>)
      ensures r.Err? <==> guide.position.Length < position.Length || current.position.Length < position.Length
      ensures r.Err? ==> r.error == IndexOutOfBounds
      ensures r.Ok? ==> fresh(r.value)
      ensures r.Ok? ==> r.value[..] == Component(weight, draw, from, guide.position[..], current.position[..], position.Length)
    {
      var n := position.Length;
      if guide.position.Length < n || current.position.Length < n {
        return Err(IndexOutOfBounds);
      }
      var component := new real[n];
      for i := 0 to n
        invariant forall j :: 0 <= j < i ==> component[j] == weight * draw(from + j) * (guide.position[j] - current.position[j])
      {
        component[i] := weight * draw(from + i) * (guide.position[i] - current.position[i]);
      }
      ghost var expected := Component(weight, draw, from, guide.position[..], current.position[..], n);
      assert forall j :: 0 <= j < n ==> component[..][j] == expected[j];
      r := Ok(component);
    }
  }
}
