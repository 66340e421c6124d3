/** Polynomial identities over plain reals behind the quaternion lemmas.
    The solver proves each of them unaided when it is stated over real
    variables; stated over datatype fields it does not, so the quaternion
    lemmas expand both sides to this form and appeal to these. */
module RealIdentities {

  /** The four components of (a*b)*c == a*(b*c), with the quaternions
      spelled out as their components. */
  lemma AssociativeOverReals(
      ax: real, ay: real, az: real, aw: real,
      bx: real, bY: real, bz: real, bw: real,
      cx: real, cy: real, cz: real, cw: real)
    ensures (aw*bw - ax*bx - ay*bY - az*bz)*cx + (aw*bx + ax*bw + ay*bz - az*bY)*cw + (aw*bY + ay*bw + az*bx - ax*bz)*cz - (aw*bz + az*bw + ax*bY - ay*bx)*cy
         == aw*(bw*cx + bx*cw + bY*cz - bz*cy) + ax*(bw*cw - bx*cx - bY*cy - bz*cz) + ay*(bw*cz + bz*cw + bx*cy - bY*cx) - az*(bw*cy + bY*cw + bz*cx - bx*cz)
    ensures (aw*bw - ax*bx - ay*bY - az*bz)*cy + (aw*bY + ay*bw + az*bx - ax*bz)*cw + (aw*bz + az*bw + ax*bY - ay*bx)*cx - (aw*bx + ax*bw + ay*bz - az*bY)*cz
         == aw*(bw*cy + bY*cw + bz*cx - bx*cz) + ay*(bw*cw - bx*cx - bY*cy - bz*cz) + az*(bw*cx + bx*cw + bY*cz - bz*cy) - ax*(bw*cz + bz*cw + bx*cy - bY*cx)
    ensures (aw*bw - ax*bx - ay*bY - az*bz)*cz + (aw*bz + az*bw + ax*bY - ay*bx)*cw + (aw*bx + ax*bw + ay*bz - az*bY)*cy - (aw*bY + ay*bw + az*bx - ax*bz)*cx
         == aw*(bw*cz + bz*cw + bx*cy - bY*cx) + az*(bw*cw - bx*cx - bY*cy - bz*cz) + ax*(bw*cy + bY*cw + bz*cx - bx*cz) - ay*(bw*cx + bx*cw + bY*cz - bz*cy)
    ensures (aw*bw - ax*bx - ay*bY - az*bz)*cw - (aw*bx + ax*bw + ay*bz - az*bY)*cx - (aw*bY + ay*bw + az*bx - ax*bz)*cy - (aw*bz + az*bw + ax*bY - ay*bx)*cz
         == aw*(bw*cw - bx*cx - bY*cy - bz*cz) - ax*(bw*cx + bx*cw + bY*cz - bz*cy) - ay*(bw*cy + bY*cw + bz*cx - bx*cz) - az*(bw*cz + bz*cw + bx*cy - bY*cx)
  {
  }

  // The four components of conjugate(a*b) == conjugate(b)*conjugate(a).

  lemma ReversalOverRealsX(ax: real, ay: real, az: real, aw: real,
                           bx: real, bY: real, bz: real, bw: real)
    ensures -(aw*bx + ax*bw + ay*bz - az*bY) == bw*(-ax) + (-bx)*aw + (-bY)*(-az) - (-bz)*(-ay)
  {
  }

  lemma ReversalOverRealsY(ax: real, ay: real, az: real, aw: real,
                           bx: real, bY: real, bz: real, bw: real)
    ensures -(aw*bY + ay*bw + az*bx - ax*bz) == bw*(-ay) + (-bY)*aw + (-bz)*(-ax) - (-bx)*(-az)
  {
  }

  lemma ReversalOverRealsZ(ax: real, ay: real, az: real, aw: real,
                           bx: real, bY: real, bz: real, bw: real)
    ensures -(aw*bz + az*bw + ax*bY - ay*bx) == bw*(-az) + (-bz)*aw + (-bx)*(-ay) - (-bY)*(-ax)
  {
  }

  lemma ReversalOverRealsW(ax: real, ay: real, az: real, aw: real,
                           bx: real, bY: real, bz: real, bw: real)
    ensures aw*bw - ax*bx - ay*bY - az*bz == bw*aw - (-bx)*(-ax) - (-bY)*(-ay) - (-bz)*(-az)
  {
  }

  /** Euler's four-square identity. */
  lemma FourSquareOverReals(ax: real, ay: real, az: real, aw: real,
                            bx: real, bY: real, bz: real, bw: real)
    ensures (aw*bx + ax*bw + ay*bz - az*bY)*(aw*bx + ax*bw + ay*bz - az*bY) + (aw*bY + ay*bw + az*bx - ax*bz)*(aw*bY + ay*bw + az*bx - ax*bz) + (aw*bz + az*bw + ax*bY - ay*bx)*(aw*bz + az*bw + ax*bY - ay*bx) + (aw*bw - ax*bx - ay*bY - az*bz)*(aw*bw - ax*bx - ay*bY - az*bz)
         == (ax*ax + ay*ay + az*az + aw*aw) * (bx*bx + bY*bY + bz*bz + bw*bw)
  {
  }

  /** The w component of q*v*conjugate(q) is NormSquared(q) * v.w. */
  lemma SandwichOverRealsW(qx: real, qy: real, qz: real, qw: real,
                           vx: real, vy: real, vz: real, vw: real)
    ensures (qw*vw - qx*vx - qy*vy - qz*vz)*qw - (qw*vx + qx*vw + qy*vz - qz*vy)*(-qx) - (qw*vy + qy*vw + qz*vx - qx*vz)*(-qy) - (qw*vz + qz*vw + qx*vy - qy*vx)*(-qz)
         == (qx*qx + qy*qy + qz*qz + qw*qw) * vw
  {
  }

  /** The x component of q*v*conjugate(q) is that of the rotation formula. */
  lemma RotationOverRealsX(qx: real, qy: real, qz: real, qw: real,
                            vx: real, vy: real, vz: real, vw: real)
    ensures (qw*vw - qx*vx - qy*vy - qz*vz)*(-qx) + (qw*vx + qx*vw + qy*vz - qz*vy)*qw + (qw*vy + qy*vw + qz*vx - qx*vz)*(-qz) - (qw*vz + qz*vw + qx*vy - qy*vx)*(-qy)
         == (qw*qw - (qx*qx + qy*qy + qz*qz))*vx + (2.0*(qx*vx + qy*vy + qz*vz))*qx + (2.0*qw)*(qy*vz - qz*vy)
  {
  }

  /** The y component of q*v*conjugate(q) is that of the rotation formula. */
  lemma RotationOverRealsY(qx: real, qy: real, qz: real, qw: real,
                            vx: real, vy: real, vz: real, vw: real)
    ensures (qw*vw - qx*vx - qy*vy - qz*vz)*(-qy) + (qw*vy + qy*vw + qz*vx - qx*vz)*qw + (qw*vz + qz*vw + qx*vy - qy*vx)*(-qx) - (qw*vx + qx*vw + qy*vz - qz*vy)*(-qz)
         == (qw*qw - (qx*qx + qy*qy + qz*qz))*vy + (2.0*(qx*vx + qy*vy + qz*vz))*qy + (2.0*qw)*(qz*vx - qx*vz)
  {
  }

  /** The z component of q*v*conjugate(q) is that of the rotation formula. */
  lemma RotationOverRealsZ(qx: real, qy: real, qz: real, qw: real,
                            vx: real, vy: real, vz: real, vw: real)
    ensures (qw*vw - qx*vx - qy*vy - qz*vz)*(-qz) + (qw*vz + qz*vw + qx*vy - qy*vx)*qw + (qw*vx + qx*vw + qy*vz - qz*vy)*(-qy) - (qw*vy + qy*vw + qz*vx - qx*vz)*(-qx)
         == (qw*qw - (qx*qx + qy*qy + qz*qz))*vz + (2.0*(qx*vx + qy*vy + qz*vz))*qz + (2.0*qw)*(qx*vy - qy*vx)
  {
  }
}
