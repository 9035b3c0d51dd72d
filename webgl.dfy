/**
 * The slice of the WebGL context the scene-graph nodes talk to. Every call that
 * changes GPU state is recorded, in order, in a ghost event log; buffer handles are
 * handed out by a counter. Uniform locations are looked up in a fixed table keyed by
 * (program, name), standing for the linked shader program.
 */
module WebGl {
  import opened JsMath

  /** The two binding points the nodes use: ARRAY_BUFFER and ELEMENT_ARRAY_BUFFER. */
  datatype Target = ArrayBuffer | ElementArrayBuffer

  /** What bufferData uploads: a Float32Array of vertex floats or a Uint16Array of indices. */
  datatype Source = Float32(floats: seq<real>) | Uint16(indices: seq<nat>)

  datatype Event =
    | CreateBuffer(handle: nat)
    | BindBuffer(target: Target, buffer: Option<nat>)
    | BufferData(target: Target, data: Source)
    | UseProgram(program: nat)
    | UniformMatrix4(location: nat, matrix: seq<real>)
    | Uniform1f(location: nat, value: Option<real>)
    | VertexAttribPointer(location: nat, size: nat, stride: nat, offset: nat)
    | DrawTriangles(count: nat)

  class Gl {
    const uniforms: map<(nat, string), nat>
    var nextBuffer: nat
    ghost var log: seq<Event>

    constructor (uniforms: map<(nat, string), nat>)
      ensures this.uniforms == uniforms && nextBuffer == 0 && log == []
    {
      this.uniforms := uniforms;
      nextBuffer := 0;
      log := [];
    }

    /** getUniformLocation: null (None) when the program has no active uniform of that name. */
    function GetUniformLocation(program: nat, name: string): Option<nat>
    {
      if (program, name) in uniforms then Some(uniforms[(program, name)]) else None
    }

    /** createBuffer: a handle never handed out before. */
    method CreateBuffer() returns (b: nat)
      modifies this`nextBuffer, this`log
      ensures b == old(nextBuffer) && nextBuffer == b + 1
      ensures log == old(log) + [Event.CreateBuffer(b)]
    {
      b := nextBuffer;
      nextBuffer := nextBuffer + 1;
      log := log + [Event.CreateBuffer(b)];
    }

    method BindBuffer(target: Target, b: Option<nat>)
      modifies this`log
      ensures log == old(log) + [Event.BindBuffer(target, b)]
    {
      log := log + [Event.BindBuffer(target, b)];
    }

    method BufferData(target: Target, data: Source)
      modifies this`log
      ensures log == old(log) + [Event.BufferData(target, data)]
    {
      log := log + [Event.BufferData(target, data)];
    }

    method UseProgram(program: nat)
      modifies this`log
      ensures log == old(log) + [Event.UseProgram(program)]
    {
      log := log + [Event.UseProgram(program)];
    }

    /** uniformMatrix4fv(location, false, m): the 16 entries of m. */
    method UniformMatrix4fv(location: nat, m: seq<real>)
      modifies this`log
      ensures log == old(log) + [UniformMatrix4(location, m)]
    {
      log := log + [UniformMatrix4(location, m)];
    }

    /** uniform1f(location, v): v is passed as given, None standing for null. */
    method Uniform1f(location: nat, v: Option<real>)
      modifies this`log
      ensures log == old(log) + [Event.Uniform1f(location, v)]
    {
      log := log + [Event.Uniform1f(location, v)];
    }

    /** vertexAttribPointer(location, size, FLOAT, false, stride, offset). */
    method VertexAttribPointer(location: nat, size: nat, stride: nat, offset: nat)
      modifies this`log
      ensures log == old(log) + [Event.VertexAttribPointer(location, size, stride, offset)]
    {
      log := log + [Event.VertexAttribPointer(location, size, stride, offset)];
    }

    /** drawElements(TRIANGLES, count, UNSIGNED_SHORT, 0). */
    method DrawElements(count: nat)
      modifies this`log
      ensures log == old(log) + [DrawTriangles(count)]
    {
      log := log + [DrawTriangles(count)];
    }
  }
}
