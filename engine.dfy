// The simulation engine and the trajectory writer, seen from the driver: an
// OpenMM context (with its integrator) and a DCD file, reduced to the calls the
// driver makes on them. Every call is appended to a shared journal, so the order
// and arguments of the calls are observable. The physics is not modelled: the
// minimizer and the integrator move the atoms to positions the model leaves
// unconstrained, and an energy query returns an unconstrained value.

module Engine {

  datatype Vec3 = Vec3(x: real, y: real, z: real)

  /** Atomic coordinates, one point per atom. */
  type Positions = seq<Vec3>

  /** One observable call on the context, its integrator or a trajectory file. */
  datatype Event =
    | ParameterSet(name: string, value: real)
    | PositionsSet(positions: Positions)
    | EnergyRead
    | Minimized(tolerance: real, maxIterations: nat)
    | Stepped(steps: nat)
    | PositionsRead
    | Opened(path: string)
    | FrameWritten(path: string)
    | Closed(path: string)

  /** The record of calls, in the order they were made. */
  class Journal {
    var events: seq<Event>

    constructor ()
      ensures events == []
    {
      events := [];
    }

    method Record(e: Event)
      modifies this
      ensures events == old(events) + [e]
    {
      events := events + [e];
    }
  }

  /** An OpenMM context together with the Langevin integrator bound to it. */
  class Context {
    const journal: Journal
    var parameters: map<string, real>
    var positions: Positions

    /** A fresh context whose global parameters hold the system's defaults. */
    constructor (journal: Journal, defaults: map<string, real>)
      ensures this.journal == journal
      ensures parameters == defaults && positions == []
    {
      this.journal := journal;
      parameters := defaults;
      positions := [];
    }

    /** `context.setParameter(name, value)`. */
    method SetParameter(name: string, value: real)
      modifies this, journal
      ensures parameters == old(parameters)[name := value]
      ensures positions == old(positions)
      ensures journal.events == old(journal.events) + [ParameterSet(name, value)]
    {
      parameters := parameters[name := value];
      journal.Record(ParameterSet(name, value));
    }

    /** `context.setPositions(p)`. */
    method SetPositions(p: Positions)
      modifies this, journal
      ensures parameters == old(parameters) && positions == p
      ensures journal.events == old(journal.events) + [PositionsSet(p)]
    {
      positions := p;
      journal.Record(PositionsSet(p));
    }

    /** `context.getState(getEnergy=True).getPotentialEnergy()`: any value. */
    method GetPotentialEnergy() returns (energy: real)
      modifies journal
      ensures journal.events == old(journal.events) + [EnergyRead]
    {
      energy := *;
      journal.Record(EnergyRead);
    }

    /** `LocalEnergyMinimizer.minimize(context, tolerance, maxIterations)`: the atoms move. */
    method Minimize(tolerance: real, maxIterations: nat)
      modifies this, journal
      ensures parameters == old(parameters)
      ensures journal.events == old(journal.events) + [Minimized(tolerance, maxIterations)]
    {
      positions := *;
      journal.Record(Minimized(tolerance, maxIterations));
    }

    /** `integrator.step(steps)`: the atoms move. */
    method Step(steps: nat)
      modifies this, journal
      ensures parameters == old(parameters)
      ensures journal.events == old(journal.events) + [Stepped(steps)]
    {
      positions := *;
      journal.Record(Stepped(steps));
    }

    /** `context.getState(getPositions=True).getPositions()`. */
    method GetPositions() returns (p: Positions)
      modifies journal
      ensures p == positions
      ensures journal.events == old(journal.events) + [PositionsRead]
    {
      p := positions;
      journal.Record(PositionsRead);
    }
  }

  /** A DCD trajectory file opened for writing. */
  class TrajectoryFile {
    const journal: Journal
    const path: string
    var frames: seq<Positions>
    var isOpen: bool

    /** `open(path, 'bw')` wrapped in a `DCDFile`: a new, empty, open file. */
    constructor Open(journal: Journal, path: string)
      modifies journal
      ensures this.journal == journal && this.path == path
      ensures frames == [] && isOpen
      ensures journal.events == old(journal.events) + [Opened(path)]
    {
      this.journal := journal;
      this.path := path;
      frames := [];
      isOpen := true;
      new;
      journal.Record(Opened(path));
    }

    /** `dcd_file.writeModel(p)`: appends one frame; writing needs an open file. */
    method WriteModel(p: Positions)
      requires isOpen
      modifies this, journal
      ensures isOpen && frames == old(frames) + [p]
      ensures journal.events == old(journal.events) + [FrameWritten(path)]
    {
      frames := frames + [p];
      journal.Record(FrameWritten(path));
    }

    /** `file_handle.close()`: the frames written so far stay. */
    method Close()
      modifies this, journal
      ensures !isOpen && frames == old(frames)
      ensures journal.events == old(journal.events) + [Closed(path)]
    {
      isOpen := false;
      journal.Record(Closed(path));
    }
  }
}
