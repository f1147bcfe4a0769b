"""The Zobrist keys that the fixed seed of src/game/core/zobristHash.hpp gives the stones of SendTwoReturnOne.

The generator is the 64-bit Mersenne Twister of the C++ standard (mt19937_64). The distribution covers all 64-bit
values, so it passes the draws on as they are.
"""

SEED = 0xA5F3C7E2B1D94
MASK = (1 << 64) - 1
BLACK, WHITE = 0, 1
STONES = [(1, 0, BLACK), (0, 1, WHITE), (2, 1, BLACK), (1, 1, WHITE),
          (3, 0, BLACK), (5, 5, WHITE), (0, 0, BLACK), (2, 0, WHITE)]


def draws(seed):
    """Yields the outputs of mt19937_64."""
    x = [seed]
    for i in range(1, 312):
        x.append((6364136223846793005 * (x[-1] ^ (x[-1] >> 62)) + i) & MASK)
    while True:
        for k in range(312):
            y = (x[k] & 0xFFFFFFFF80000000) | (x[(k + 1) % 312] & 0x7FFFFFFF)
            x[k] = x[(k + 156) % 312] ^ (y >> 1) ^ (0xB5026F5AA96619E9 if y & 1 else 0)
        for y in x:
            y ^= (y >> 29) & 0x5555555555555555
            y ^= (y << 17) & 0x71D67FFFEDA60000
            y ^= (y << 37) & 0xFFF7EEE000000000
            yield y ^ (y >> 43)


def seeded_keys(size):
    """The keys of STONES on a board of this size, and the toggle key."""
    rng = draws(SEED)
    table = {(x, y, c): next(rng) for x in range(size) for y in range(size) for c in (BLACK, WHITE)}
    return [table[stone] for stone in STONES] + [next(rng)]


if __name__ == "__main__":
    for size in (9, 13, 19):
        print(size, ", ".join(f"0x{key:016x}" for key in seeded_keys(size)))
